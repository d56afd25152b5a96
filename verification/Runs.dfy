/** Whole runs of the ledger: every reachable state satisfies the representation invariant, and every
    publication on the way is one the allowed-step relation accepts. */
module Runs {
  import opened ControlTypes
  import opened Records
  import opened Publications
  import opened Invariant
  import opened Preservation
  import opened History
  import opened Ledger
  import opened Steps
  import opened Shapes
  import opened Lifecycle
  import opened SubmissionSoundness
  import CommandSoundness
  import OperationSoundness
  import Licences
  import PeerRecords
  import Submissions
  import T = Transition

  /** The representation invariant of a stored control record. */
  ghost predicate Inv(s: Control) {
    LedgerOk(s) && LifecycleOf(s)
  }

  // ---------- submissions and the rest of the ledger ----------

  lemma WiderRevision(s: Control)
    requires RecordsOk(s)
    ensures RecordsOk(s.(revision := s.revision + 1))
  {
  }

  lemma WiderFields(s: Control, schema: nat)
    requires FieldsFit(s) && s.schema <= schema
    ensures FieldsFit(s.(schema := schema))
  {
  }

  lemma SameReferences(s: Control, t: Control)
    requires LedgersRefer(s) && t.works == s.works && t.cases == s.cases && t.notes == s.notes && t.epoch == s.epoch
    requires t.receipts == s.receipts && t.recoveries == s.recoveries
    ensures LedgersRefer(t)
  {
    hide KnownId, SubjectKnown, HasWork, HasCase;
    forall i | 0 <= i < |t.receipts| ensures ReceiptRefers(t, t.receipts[i]) { assert ReceiptRefers(s, s.receipts[i]); }
    forall i | 0 <= i < |t.recoveries| ensures RecoveryRefers(t, t.recoveries[i]) { assert RecoveryRefers(s, s.recoveries[i]); }
  }

  lemma Unique(s: Control)
    requires RecordsOk(s)
    ensures UniqueWorks(s.works) && UniqueCases(s.cases) && UniqueNotes(s.notes)
  {
  }

  lemma SubmittingKeeps(s: Control, p: Publication, owner: ParentId, key: Key)
    requires Inv(s) && SubmissionSound(s, p, owner, key) && !key.WorkerKey? && !KeyUsed(s, OwnedKey(owner, key))
    ensures Inv(Publish(s, p)) && T.Allowed(s, Publish(s, p))
  {
    hide LifecycleOf, RecordsOk, FieldsFit, Enrolled, LedgersRefer, HistoryExact, KeysOnce, KeyUsed, T.Allowed, T.SubmissionAllowed;
    var t := Publish(s, p);
    WiderRevision(s);
    SameRecords(s.(revision := s.revision + 1), t);
    WiderFields(s, p.schema);
    SameFields(s.(schema := p.schema), t);
    SameReferences(s, t);
    HistoryKept(s, p);
    KeysKept(s, p);
    Unique(s);
    Licences.SubmittingAllowed(s, p);
  }

  lemma SameLifecycle(s: Control, t: Control)
    requires LifecycleOf(s) && t.announcements == s.announcements && t.bindings == s.bindings && t.events == s.events
    ensures LifecycleOf(t)
  {
  }

  /** A publication of any kind that fits the state. */
  ghost predicate SoundChange(s: Control, p: Publication) {
    match p
    case Ordinary(ch, schema, r) => OrdinarySound(s, ch, schema, r)
    case Recovering(ch, schema, r) => RecoverySound(s, ch, schema, r)
    case Submitting(_, _, _, e) => SubmissionSound(s, p, e.owner, e.key) && !e.key.WorkerKey?
  }

  /** Its key is one that no ledger holds. */
  ghost predicate Sound(s: Control, p: Publication) {
    SoundChange(s, p) && !KeyUsed(s, EntryKey(p))
  }

  // ---------- one step ----------

  /** Every admissible operation that is accepted publishes something sound. */
  lemma AttemptSound(s: Control, op: Op, p: Publication)
    requires Inv(s) && Admissible(s, op) && Attempt(s, op) == Candidate(p)
    ensures Sound(s, p)
  {
    hide RecordsOk, LedgersFit, FieldsFit, Enrolled, LedgersRefer, HistoryExact, KeysOnce, NoWorkerKeys, LifecycleOf, FreshIdentity, NewKey,
         Attempt, Shape, KeyUsed, EntryKey, KeyOf, OrdinarySound, RecoverySound, Decodable, CommandBody, ExtendBody, ObserveBody, WorkerBody,
         Submissions.Submit, RecoverStep, CasePendingUnsettled, T.SubmissionAllowed, WorkerCase, FreshId, UnresolvedApplication, AdmittedHere,
         ApplicationPosted, ReceiptKeyUsed, ReceiptFor, PostedByRun, PeerRecords.ProposalCurrent, PeerRecords.WorkerParties;
    Shapes.Shapes(s, op, p);
    ShapedKey(op, p);
    if KeyUsed(s, KeyOf(op)) { UsedKeyPublishesNothing(s, op); }
    match op
    case CommandOp(owner, command, elected, newId) => CommandSoundness.CommandSound(s, owner, command, elected, newId, p);
    case ExtendOp(owner, key, x) => OperationSoundness.ExtendSound(s, owner, key, x, p);
    case ObserveOp(owner, key, x, _, _) => OperationSoundness.ObserveSound(s, owner, key, x, p);
    case WorkerOp(actor, k, operation, bytes, newId) =>
      FreshNote(s, op);
      OperationSoundness.WorkerSound(s, actor, MainKey(actor, k), operation, bytes, newId, p);
    case AdmitOp(actor, k, noteId, digest, bytes, newId) =>
      FreshNote(s, op);
      OperationSoundness.ApplicationSound(s, actor, WorkerCase(s, actor).value, PendingKey(actor, k), noteId,
        ApplicationRecord(s.notes[NoteIndex(s.notes, noteId)].text.record, digest, StatusPending), bytes, newId);
    case OutcomeOp(actor, k, noteId, proposal, _, _, digest, status, bytes, newId) =>
      FreshNote(s, op);
      OperationSoundness.ApplicationSound(s, actor, CaseIndex(s.cases, actor.caseId), OutcomeKey(actor, k), noteId,
        ApplicationRecord(proposal, digest, status), bytes, newId);
    case SubmitOp(owner, key, input) => SubmitSound(s, owner, key, input, p);
    case RecoverOp(operator, r) => OperationSoundness.RecoverSound(s, operator, r, p);
  }

  lemma FreshNote(s: Control, op: Op)
    requires FreshIdentity(s, op) && (op.WorkerOp? || op.AdmitOp? || op.OutcomeOp?)
    ensures FreshId(s, op.newId)
  {
  }

  /** Every accepted operation keeps the representation invariant, and its publication is an allowed step. */
  lemma StepKeeps(s: Control, op: Op)
    requires Inv(s) && Admissible(s, op)
    ensures Inv(Step(s, op))
    ensures Accepts(s, op) ==> T.Allowed(s, Step(s, op))
  {
    hide LedgerOk, LifecycleOf, Attempt, Admissible, T.Allowed, OrdinarySound, RecoverySound, SubmissionSound, KeyUsed;
    match Attempt(s, op)
    case Candidate(p) =>
      AttemptSound(s, op, p);
      match p {
        case Ordinary(ch, schema, r) =>
          OrdinaryKeeps(s, ch, schema, r);
          SameLifecycle(s, Publish(s, p));
        case Recovering(ch, schema, r) =>
          RecoveryKeeps(s, ch, schema, r);
          SameLifecycle(s, Publish(s, p));
        case Submitting(_, _, _, e) => SubmittingKeeps(s, p, e.owner, e.key);
      }
    case _ =>
  }

  // ---------- runs ----------

  /** The operations applied to the empty record, one after the other. */
  datatype Trace = Start(repository: string, epoch: Id, limits: Limits) | Then(before: Trace, op: Op)

  /** Where the operations lead: each publishes or changes nothing. */
  function Now(t: Trace): Control {
    match t
    case Start(repository, epoch, limits) => EmptyControl(repository, epoch, limits)
    case Then(before, op) => Step(Now(before), op)
  }

  /** A run applies only admissible operations. */
  predicate Run(t: Trace) {
    match t
    case Start(_, _, _) => true
    case Then(before, op) => Run(before) && Admissible(Now(before), op)
  }

  datatype Moment = Moment(state: Control, op: Op)

  /** The calls of a run, each with the state it met. */
  function Moments(t: Trace): seq<Moment> {
    match t
    case Start(_, _, _) => []
    case Then(before, op) => Moments(before) + [Moment(Now(before), op)]
  }

  /** The second run continues the first. */
  predicate Continues(t: Trace, u: Trace) {
    t == u || match u case Start(_, _, _) => false case Then(before, _) => Continues(t, before)
  }

  /** The calls the second run adds. */
  function MomentsSince(t: Trace, u: Trace): seq<Moment> {
    if t == u then []
    else match u case Start(_, _, _) => [] case Then(before, op) => MomentsSince(t, before) + [Moment(Now(before), op)]
  }

  /** The calls of a run are the earlier ones and the last. */
  lemma LastMoment(before: Trace, op: Op)
    ensures Moment(Now(before), op) in Moments(Then(before, op))
    ensures forall c :: c in Moments(before) ==> c in Moments(Then(before, op))
  {
    hide Now;
    assert Moments(Then(before, op))[|Moments(before)|] == Moment(Now(before), op);
  }

  lemma LastMomentSince(t: Trace, before: Trace, op: Op)
    requires t != Then(before, op)
    ensures Moment(Now(before), op) in MomentsSince(t, Then(before, op))
    ensures forall c :: c in MomentsSince(t, before) ==> c in MomentsSince(t, Then(before, op))
  {
    hide Now;
    assert MomentsSince(t, Then(before, op))[|MomentsSince(t, before)|] == Moment(Now(before), op);
  }

  lemma EmptyLedgers(s: Control)
    requires s.receipts == [] && s.recoveries == [] && s.events == [] && s.revision == 0 && s.works == []
    ensures HistoryExact(s) && KeysOnce(s) && LedgersRefer(s) && NoWorkerKeys(s) && Enrolled(s.works, s.receipts)
  {
  }

  lemma EmptyRecords(s: Control)
    requires s.works == [] && s.cases == [] && s.notes == []
    ensures RecordsOk(s) && FieldsFit(s)
  {
  }

  lemma EmptyVersion(repository: string, epoch: Id, limits: Limits)
    ensures LedgersFit(EmptyControl(repository, epoch, limits))
  {
  }

  lemma EmptyLifecycle(s: Control)
    requires s.announcements == [] && s.bindings == [] && s.events == []
    ensures LifecycleOf(s)
  {
  }

  lemma EmptyHolds(repository: string, epoch: Id, limits: Limits)
    ensures Inv(EmptyControl(repository, epoch, limits))
  {
    hide RecordsOk, FieldsFit, LedgersFit, Enrolled, LedgersRefer, HistoryExact, KeysOnce, NoWorkerKeys, LifecycleOf;
    var s := EmptyControl(repository, epoch, limits);
    EmptyRecords(s);
    EmptyLedgers(s);
    EmptyVersion(repository, epoch, limits);
    EmptyLifecycle(s);
  }

  /** The invariant holds in every state of every run. */
  lemma {:induction false} Reachable(t: Trace)
    requires Run(t)
    ensures Inv(Now(t))
  {
    hide Inv, Admissible, Step, Accepts, T.Allowed;
    match t
    case Start(repository, epoch, limits) => EmptyHolds(repository, epoch, limits);
    case Then(before, op) =>
      Reachable(before);
      StepKeeps(Now(before), op);
  }

  /** Every change of state on a run is accepted by the allowed-step relation. */
  lemma EveryStepAllowed(before: Trace, op: Op)
    requires Run(Then(before, op))
    ensures Now(Then(before, op)) == Now(before) || T.Allowed(Now(before), Now(Then(before, op)))
  {
    hide Inv, Admissible, Attempt, Publish, T.Allowed;
    Reachable(before);
    StepKeeps(Now(before), op);
  }

  // ---------- the submission lifecycle of a reachable state ----------

  lemma EventsBounded(es: seq<Event>, bs: seq<Binding>, id: Id, s: Control)
    requires HistoryExact(s) && es == s.events
    ensures Changes(es, bs, id) <= s.revision
  {
    EveryRevisionOnce(s, 0);
  }

  /** An announcement's revision counts the events about it, and it is bound or linked exactly while one live binding holds it. */
  predicate AnnouncementFollows(s: Control, a: Announcement) {
    a.revision == Changes(s.events, s.bindings, a.id) && 1 <= a.revision <= s.revision &&
    (a.state == AnnouncementBound || a.state == Linked <==> !NoLive(s.bindings, a.id)) &&
    (a.state == AnnouncementBound || a.state == Linked ==> a.taskId.Some? && HeldBy(s.bindings, a, a.taskId.value))
  }

  /** So it is in every reachable state. */
  lemma AnnouncementsFollowHistory(t: Trace, a: Announcement)
    requires Run(t) && a in Now(t).announcements
    ensures AnnouncementFollows(Now(t), a)
  {
    hide Run, Step, RecordsOk, FieldsFit, LedgersFit, Enrolled, LedgersRefer, KeysOnce, NoWorkerKeys, BindingOk, EventOk, HistoryExact;
    Reachable(t);
    var s := Now(t);
    assert AnnouncementOk(s.bindings, s.events, a);
    EventsBounded(s.events, s.bindings, a.id, s);
    ChangesPositive(s.events, s.bindings, a.id);
    HeldIsLive(s.bindings, a);
  }

  lemma HeldIsLive(bs: seq<Binding>, a: Announcement)
    requires Holding(bs, a)
    ensures a.state == AnnouncementBound || a.state == Linked <==> !NoLive(bs, a.id)
  {
    if a.state == AnnouncementBound || a.state == Linked { assert Live(bs[BindingIndex(bs, a.taskId.value)], a.id); }
  }

  lemma {:induction false} ChangesPositive(es: seq<Event>, bs: seq<Binding>, id: Id)
    requires Begun(es, id)
    ensures Changes(es, bs, id) >= 1
  {
    var i :| 0 <= i < |es| && es[i].kind == Announced && es[i].itemId == id;
    if i < |es| - 1 {
      var front := es[..|es| - 1];
      assert front[i] == es[i];
      ChangesPositive(front, bs, id);
    }
  }

  /** The binding's state is the one its ordered history spells, under its one owner, and no other live binding of the owner
      has its request key. */
  predicate BindingFollows(s: Control, b: Binding) {
    Spells(HistoryOf(s.events, b.taskId), b.owner, Spelling(b.state)) &&
    forall c :: c in s.bindings && c != b && c.owner == b.owner && c.state != Released && b.state != Released ==> c.requestKey != b.requestKey
  }

  /** So it is in every reachable state. */
  lemma BindingsFollowHistory(t: Trace, b: Binding)
    requires Run(t) && b in Now(t).bindings
    ensures BindingFollows(Now(t), b)
  {
    hide Run, Step, RecordsOk, FieldsFit, LedgersFit, Enrolled, LedgersRefer, KeysOnce, NoWorkerKeys, AnnouncementOk, EventOk, HistoryExact;
    Reachable(t);
    assert BindingOk(Now(t).announcements, Now(t).events, b);
  }

  /** Over every run an owner's key has at most one entry across the three ledgers, and the ledgers hold each revision once. */
  lemma OneEntryPerKey(t: Trace, key: OwnedKey, revision: nat)
    requires Run(t)
    ensures Keys(Now(t))[key] <= 1
    ensures Revisions(Now(t))[revision] == (if 1 <= revision <= Now(t).revision then 1 else 0)
  {
    hide Run, Step, RecordsOk, FieldsFit, LedgersFit, Enrolled, LedgersRefer, NoWorkerKeys, LifecycleOf, HistoryExact;
    Reachable(t);
    EveryRevisionOnce(Now(t), revision);
  }
}
