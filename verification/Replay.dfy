/** Exactly-once acknowledgment: one owner's key is answered by one entry for ever.  Repeating the request
    returns that entry and changes nothing; other content under the key is refused. */
module Replay {
  import opened ControlTypes
  import opened Records
  import opened Publications
  import opened Invariant
  import opened History
  import opened Steps
  import opened Runs
  import opened Retained
  import opened Ledger
  import opened Shapes
  import opened SubmissionSoundness
  import Submissions
  import Lifecycle

  function RequestOf(op: Op): Option<Request> {
    match op
    case CommandOp(owner, command, _, _) => Some(CommandRequest(owner, command))
    case ExtendOp(owner, key, x) => Some(ExtensionRequest(owner, key, x))
    case ObserveOp(owner, key, o, _, _) => Some(ObservationRequest(owner, key, o))
    case WorkerOp(actor, k, operation, _, _) => Some(WorkerRequest(actor, MainKey(actor, k), operation))
    case AdmitOp(_, _, _, _, _, _) => None
    case OutcomeOp(actor, k, noteId, p, _, _, digest, status, _, _) =>
      if p.Proposal? then Some(WorkerRequest(actor, OutcomeKey(actor, k), WorkerApply(noteId, ApplicationRecord(p, digest, status)))) else None
    case SubmitOp(owner, key, input) => Some(SubmissionRequest(owner, key, input))
    case RecoverOp(operator, r) => Some(RecoveryRequest(operator, r))
  }

  // ---------- the two keys that are not looked up everywhere ----------

  /** Delivery observation looks its key up in the receipts alone: when it publishes, keys stay unique exactly
      when neither of the other two ledgers holds the key. */
  lemma ObservationKeysExact(s: Control, owner: ParentId, key: Key, o: Observation, epoch: Id, revision: nat, p: Publication)
    requires KeysOnce(s) && ObserveDelivery(s, owner, key, o, epoch, revision) == Candidate(p)
    ensures KeysOnce(Publish(s, p)) <==> !RecoveryKeyUsed(s.recoveries, owner, key) && !EventKeyUsed(s.events, owner, key)
  {
    hide KeysOnce;
    assert EntryKey(p) == OwnedKey(owner, key);
    KeysKept(s, p);
  }

  /** Application admission looks its key up among one case's applications: when it publishes, keys stay
      unique exactly when no receipt holds the key. */
  lemma AdmissionKeysExact(s: Control, actor: WorkerActor, k: string, noteId: Id, digest: Digest, bytes: nat, newId: Id, p: Publication)
    requires KeysOnce(s) && NoWorkerKeys(s) && AdmitApplication(s, actor, k, noteId, digest, bytes, newId) == Admits(p)
    ensures KeysOnce(Publish(s, p)) <==> !ReceiptKeyUsed(s.receipts, actor.owner, PendingKey(actor, k))
  {
    hide KeysOnce, WorkerCase, UnresolvedApplication, AdmittedHere, ApplicableProposal;
    assert EntryKey(p) == OwnedKey(actor.owner, PendingKey(actor, k));
    KeysKept(s, p);
  }

  // ---------- answers last ----------

  lemma {:induction false} AnswerLasts(rs: seq<Receipt>, later: seq<Receipt>, owner: ParentId, key: Key)
    requires rs <= later && ReceiptKeyUsed(rs, owner, key)
    ensures ReceiptFor(later, owner, key) == ReceiptFor(rs, owner, key)
  {
    assert later[0] == rs[0];
    if !(rs[0].owner == owner && rs[0].key == key) {
      var i :| 0 <= i < |rs| && rs[i].owner == owner && rs[i].key == key;
      assert rs[1..][i - 1] == rs[i];
      assert rs[1..] <= later[1..];
      AnswerLasts(rs[1..], later[1..], owner, key);
    }
  }

  lemma {:induction false} RecoveryAnswerLasts(rs: seq<RecoveryReceipt>, later: seq<RecoveryReceipt>, owner: ParentId, key: Key)
    requires rs <= later && RecoveryKeyUsed(rs, owner, key)
    ensures RecoveryFor(later, owner, key) == RecoveryFor(rs, owner, key)
  {
    assert later[0] == rs[0];
    if !(rs[0].operator == owner && rs[0].recovery.key == key) {
      var i :| 0 <= i < |rs| && rs[i].operator == owner && rs[i].recovery.key == key;
      assert rs[1..][i - 1] == rs[i];
      assert rs[1..] <= later[1..];
      RecoveryAnswerLasts(rs[1..], later[1..], owner, key);
    }
  }

  lemma {:induction false} NewAnswer(rs: seq<Receipt>, r: Receipt)
    requires !ReceiptKeyUsed(rs, r.owner, r.key)
    ensures ReceiptFor(rs + [r], r.owner, r.key) == Some(r)
  {
    var all := rs + [r];
    if rs != [] {
      assert !(rs[0].owner == r.owner && rs[0].key == r.key);
      assert all[1..] == rs[1..] + [r];
      assert forall i :: 0 <= i < |rs| - 1 ==> rs[1..][i] == rs[i + 1];
      NewAnswer(rs[1..], r);
    }
  }

  lemma {:induction false} NewRecoveryAnswer(rs: seq<RecoveryReceipt>, r: RecoveryReceipt)
    requires !RecoveryKeyUsed(rs, r.operator, r.recovery.key)
    ensures RecoveryFor(rs + [r], r.operator, r.recovery.key) == Some(r)
  {
    var all := rs + [r];
    if rs != [] {
      assert !(rs[0].operator == r.operator && rs[0].recovery.key == r.recovery.key);
      assert all[1..] == rs[1..] + [r];
      assert forall i :: 0 <= i < |rs| - 1 ==> rs[1..][i] == rs[i + 1];
      NewRecoveryAnswer(rs[1..], r);
    }
  }

  // ---------- repeating a request ----------

  /** Guards that run before the key is looked up. */
  predicate Gated(s: Control, op: Op) {
    match op
    case CommandOp(_, command, _, _) => command.ReleaseCase? && CasePendingUnsettled(s, command.caseId)
    case WorkerOp(actor, _, _, _, _) => WorkerCase(s, actor).Err?
    case _ => false
  }

  predicate Plain(op: Op) {
    op.CommandOp? || op.ExtendOp? || op.ObserveOp? || op.WorkerOp? || op.OutcomeOp?
  }

  /** A command that decodes, under a key of its own. */
  predicate Readable(op: Op) {
    match op
    case CommandOp(_, command, _, _) => Decodable(command) && !command.key.WorkerKey?
    case SubmitOp(_, key, _) => !key.WorkerKey?
    case RecoverOp(_, r) => !Blank(r.statement) && !r.key.WorkerKey?
    case _ => true
  }

  /** The receipt acknowledges exactly this request. */
  predicate ReceiptOf(op: Op, r: Receipt) {
    KeyOf(op) == OwnedKey(r.owner, r.key) && Some(r.request) == RequestOf(op) &&
    (op.ExtendOp? ==> r.action == ActExtendCase) && (op.ObserveOp? ==> r.action == ActObserveDelivery)
  }

  /** What the receipts answer under the owned key. */
  function ReceiptUnder(s: Control, k: OwnedKey): Option<Receipt> { ReceiptFor(s.receipts, k.owner, k.key) }

  predicate InReceipts(s: Control, k: OwnedKey) { ReceiptKeyUsed(s.receipts, k.owner, k.key) }

  predicate InOtherLedgers(s: Control, k: OwnedKey) {
    RecoveryKeyUsed(s.recoveries, k.owner, k.key) || EventKeyUsed(s.events, k.owner, k.key)
  }

  /** The answer is the publication's own entry. */
  predicate ReturnsEntry(o: Outcome, p: Publication) {
    match p
    case Ordinary(_, _, r) => o == Recorded(ReceiptAnswer(r))
    case Recovering(_, _, r) => o == Recorded(RecoveryAnswer(r))
    case Submitting(_, _, _, _) => false
  }

  /** What an accepted ordinary operation leaves behind: a receipt for exactly its request. */
  predicate LeavesReceipt(op: Op, p: Publication) {
    match p
    case Ordinary(_, _, r) => ReceiptOf(op, r)
    case _ => false
  }

  lemma ShapedReceipt(op: Op, p: Publication)
    requires Plain(op) && Shape(op, p)
    ensures LeavesReceipt(op, p)
  {
    hide ActionOf, CommandChange;
  }

  /** With its receipt on record the same request is answered by it, or stopped by the guard before the lookup. */
  lemma AnsweredByReceipt(s: Control, op: Op, r: Receipt)
    requires Plain(op) && NoWorkerKeys(s) && ReceiptUnder(s, KeyOf(op)) == Some(r) && !InOtherLedgers(s, KeyOf(op))
    requires ReceiptOf(op, r) && Readable(op)
    ensures if Gated(s, op) then Attempt(s, op).Refused? else Attempt(s, op) == Recorded(ReceiptAnswer(r))
  {
    hide CasePendingUnsettled, Decodable, CommandBody, ExtendBody, ObserveBody, WorkerBody, WorkerCase;
  }

  /** Different content under a recorded key is refused. */
  lemma OtherContentRefused(s: Control, op: Op, r: Receipt)
    requires Plain(op) && ReceiptUnder(s, KeyOf(op)) == Some(r) && Some(r.request) != RequestOf(op)
    ensures Attempt(s, op).Refused?
  {
    hide CasePendingUnsettled, Decodable, CommandBody, ExtendBody, ObserveBody, WorkerBody, WorkerCase;
  }

  lemma UniqueHolder(s: Control, k: OwnedKey)
    requires KeysOnce(s) && InReceipts(s, k)
    ensures !InOtherLedgers(s, k)
  {
    var a, b, c := ReceiptKeys(s.receipts), RecoveryKeys(s.recoveries), EventKeys(s.events);
    assert k in a <==> ReceiptKeyUsed(s.receipts, k.owner, k.key);
    assert k in b <==> RecoveryKeyUsed(s.recoveries, k.owner, k.key);
    assert k in c <==> EventKeyUsed(s.events, k.owner, k.key);
    assert Keys(s)[k] == multiset(a)[k] + multiset(b)[k] + multiset(c)[k] <= 1;
  }

  lemma InvKeys(s: Control)
    requires Inv(s)
    ensures KeysOnce(s) && NoWorkerKeys(s)
  {
    hide LifecycleOf, RecordsOk, FieldsFit, LedgersFit, Enrolled, LedgersRefer, HistoryExact, KeysOnce, NoWorkerKeys;
  }

  /** The new receipt answers its key from now on. */
  lemma NewReceiptLasts(s: Control, ch: Change, schema: nat, r: Receipt, t: Control)
    requires !KeyUsed(s, OwnedKey(r.owner, r.key)) && Later(Publish(s, Ordinary(ch, schema, r)), t)
    ensures ReceiptUnder(t, OwnedKey(r.owner, r.key)) == Some(r) && InReceipts(t, OwnedKey(r.owner, r.key))
  {
    hide Put, WorkLasts, CaseLasts, NoteLasts, BindingsLast;
    NewAnswer(s.receipts, r);
    AnswerLasts(s.receipts + [r], t.receipts, r.owner, r.key);
  }

  /** An accepted operation's entry is new, and everything retained with it stands in every later state of the run. */
  lemma AcceptedStands(before: Trace, op: Op, u: Trace, p: Publication)
    requires Run(u) && Continues(Then(before, op), u) && Attempt(Now(before), op) == Candidate(p)
    ensures !KeyUsed(Now(before), EntryKey(p)) && Later(Publish(Now(before), p), Now(u)) && Inv(Now(u)) && Readable(op) && Shape(op, p)
  {
    hide Inv, Admissible, Attempt, SoundChange, KeyUsed, EntryKey, Later, Continues, Shape, Publish, CommandBody, ExtendBody, ObserveBody,
         WorkerBody, AdmitApplication, PublishOutcome, Submissions.Submit, ApplyRecovery, CasePendingUnsettled, Decodable, Blank, RecoveryFor,
         ReceiptKeyUsed, EventKeyUsed;
    NothingIsLost(Then(before, op), u);
    Reachable(before);
    Reachable(u);
    StepPublishes(Now(before), op, p);
  }

  /** Once accepted, the same request is answered by its own receipt in every later state of the run, or stopped by the
      guard before the lookup, and changes nothing. */
  lemma RepeatReturnsReceipt(before: Trace, op: Op, u: Trace, p: Publication)
    requires Run(u) && Continues(Then(before, op), u) && Plain(op) && Attempt(Now(before), op) == Candidate(p)
    ensures if Gated(Now(u), op) then Attempt(Now(u), op).Refused? else ReturnsEntry(Attempt(Now(u), op), p)
    ensures Step(Now(u), op) == Now(u)
  {
    hide Run, Now, Continues, Inv, Admissible, Attempt, Gated, Plain, Later, Readable, Shape, KeyOf, RequestOf, KeyUsed, Publish,
         ReceiptUnder, InReceipts, InOtherLedgers, KeysOnce, NoWorkerKeys;
    AcceptedStands(before, op, u, p);
    ShapedReceipt(op, p);
    match p
    case Ordinary(ch, schema, r) =>
      NewReceiptLasts(Now(before), ch, schema, r, Now(u));
      InvKeys(Now(u));
      UniqueHolder(Now(u), KeyOf(op));
      AnsweredByReceipt(Now(u), op, r);
  }

  /** Once a key is on record, other content under it is refused in every later state of the run. */
  lemma OtherContentRefusedForEver(before: Trace, op: Op, u: Trace, p: Publication, other: Op)
    requires Run(u) && Continues(Then(before, op), u) && Plain(op) && Attempt(Now(before), op) == Candidate(p)
    requires Plain(other) && KeyOf(other) == KeyOf(op) && RequestOf(other) != RequestOf(op)
    ensures Attempt(Now(u), other).Refused?
  {
    hide Run, Now, Continues, Inv, Admissible, Attempt, Plain, Later, Readable, Shape, KeyOf, RequestOf, KeyUsed, Publish,
         ReceiptUnder, InReceipts;
    AcceptedStands(before, op, u, p);
    ShapedReceipt(op, p);
    match p
    case Ordinary(ch, schema, r) =>
      NewReceiptLasts(Now(before), ch, schema, r, Now(u));
      OtherContentRefused(Now(u), other, r);
  }

  // ---------- repeating a recovery ----------

  lemma NewRecoveryLasts(s: Control, ch: Change, schema: nat, r: RecoveryReceipt, t: Control)
    requires !KeyUsed(s, OwnedKey(r.operator, r.recovery.key)) && Later(Publish(s, Recovering(ch, schema, r)), t)
    ensures RecoveryFor(t.recoveries, r.operator, r.recovery.key) == Some(r)
  {
    hide Put, WorkLasts, CaseLasts, NoteLasts, BindingsLast;
    assert (s.recoveries + [r])[|s.recoveries|] == r;
    NewRecoveryAnswer(s.recoveries, r);
    RecoveryAnswerLasts(s.recoveries + [r], t.recoveries, r.operator, r.recovery.key);
  }

  lemma RecoveryRecorded(s: Control, operator: ParentId, r: Recovery, receipt: RecoveryReceipt)
    requires Readable(RecoverOp(operator, r)) && receipt.request == RecoveryRequest(operator, r)
    requires RecoveryFor(s.recoveries, operator, r.key) == Some(receipt)
    ensures RecoverStep(s, operator, r) == Recorded(RecoveryAnswer(receipt))
  {
    hide ApplyRecovery, Blank, RecoveryFor;
  }

  /** An operator recovery is answered by its own recovery receipt in every later state of the run. */
  lemma RepeatReturnsRecovery(before: Trace, operator: ParentId, r: Recovery, u: Trace, p: Publication)
    requires Run(u) && Continues(Then(before, RecoverOp(operator, r)), u) && Attempt(Now(before), RecoverOp(operator, r)) == Candidate(p)
    ensures ReturnsEntry(Attempt(Now(u), RecoverOp(operator, r)), p)
  {
    hide Run, Now, Continues, Inv, Later, Readable, KeyUsed, Publish, RecoverStep, RecoveryFor, ExecuteCommand, ExtendCase, ObserveDelivery,
         WorkerStep, AdmitApplication, PublishOutcome, SubmitStep;
    AcceptedStands(before, RecoverOp(operator, r), u, p);
    match p
    case Recovering(ch, schema, receipt) =>
      NewRecoveryLasts(Now(before), ch, schema, receipt, Now(u));
      RecoveryRecorded(Now(u), operator, r, receipt);
  }

  // ---------- repeating a submission ----------

  lemma {:induction false} EventAnswerLasts(es: seq<Event>, later: seq<Event>, owner: ParentId, key: Key)
    requires es <= later && EventKeyUsed(es, owner, key)
    ensures EventFor(later, owner, key) == EventFor(es, owner, key)
  {
    assert later[0] == es[0];
    if !(es[0].owner == owner && es[0].key == key) {
      var i :| 0 <= i < |es| && es[i].owner == owner && es[i].key == key;
      assert es[1..][i - 1] == es[i];
      assert es[1..] <= later[1..];
      EventAnswerLasts(es[1..], later[1..], owner, key);
    }
  }

  lemma {:induction false} NewEventAnswer(es: seq<Event>, e: Event)
    requires !EventKeyUsed(es, e.owner, e.key)
    ensures EventFor(es + [e], e.owner, e.key) == Some(e)
  {
    var all := es + [e];
    if es != [] {
      assert !(es[0].owner == e.owner && es[0].key == e.key);
      assert all[1..] == es[1..] + [e];
      assert forall i :: 0 <= i < |es| - 1 ==> es[1..][i] == es[i + 1];
      NewEventAnswer(es[1..], e);
    }
  }

  lemma NewEventLasts(s: Control, xs: seq<Announcement>, bs: seq<Binding>, schema: nat, e: Event, t: Control)
    requires !KeyUsed(s, OwnedKey(e.owner, e.key)) && Later(Publish(s, Submitting(xs, bs, schema, e)), t)
    ensures EventFor(t.events, e.owner, e.key) == Some(e)
  {
    hide WorkLasts, CaseLasts, NoteLasts, BindingsLast;
    assert (s.events + [e])[|s.events|] == e;
    NewEventAnswer(s.events, e);
    EventAnswerLasts(s.events + [e], t.events, e.owner, e.key);
  }

  lemma EventHolder(s: Control, k: OwnedKey)
    requires KeysOnce(s) && EventKeyUsed(s.events, k.owner, k.key)
    ensures !InReceipts(s, k) && !RecoveryKeyUsed(s.recoveries, k.owner, k.key)
  {
    var a, b, c := ReceiptKeys(s.receipts), RecoveryKeys(s.recoveries), EventKeys(s.events);
    assert k in a <==> ReceiptKeyUsed(s.receipts, k.owner, k.key);
    assert k in b <==> RecoveryKeyUsed(s.recoveries, k.owner, k.key);
    assert k in c <==> EventKeyUsed(s.events, k.owner, k.key);
    assert Keys(s)[k] == multiset(a)[k] + multiset(b)[k] + multiset(c)[k] <= 1;
  }

  /** The announcement or binding the event is about is retained, and this is the answer that shows it as it stands. */
  predicate ShowsEntity(s: Control, e: Event, o: Outcome) {
    if Lifecycle.AboutAnnouncement(e.kind)
    then exists a :: a in s.announcements && a.id == e.itemId && o == Recorded(AnnouncementAnswer(a))
    else exists b :: b in s.bindings && b.taskId == e.itemId && o == Recorded(BindingAnswer(b))
  }

  lemma EventRecorded(s: Control, owner: ParentId, key: Key, input: SubmissionInput, e: Event)
    requires LifecycleOf(s) && !key.WorkerKey? && !ReceiptKeyUsed(s.receipts, owner, key) && !RecoveryKeyUsed(s.recoveries, owner, key)
    requires EventFor(s.events, owner, key) == Some(e) && e.request == SubmissionRequest(owner, key, input)
    ensures ShowsEntity(s, e, SubmitStep(s, owner, key, input))
  {
    hide Submissions.Submit, ReceiptKeyUsed, RecoveryKeyUsed, EventKeyUsed, Lifecycle.AnnouncementOk, Lifecycle.BindingOk;
    assert Lifecycle.EventOk(s.announcements, s.bindings, e);
  }

  lemma InvLifecycle(s: Control)
    requires Inv(s)
    ensures LifecycleOf(s)
  {
    hide LedgerOk, LifecycleOf;
  }

  /** The submission's answer shows the record its event is about. */
  predicate ReturnsEntity(s: Control, o: Outcome, p: Publication) {
    match p
    case Submitting(_, _, _, e) => ShowsEntity(s, e, o)
    case _ => false
  }

  /** A repeated submission changes nothing and returns the record it created, as it now stands. */
  lemma RepeatReturnsSubmission(before: Trace, owner: ParentId, key: Key, input: SubmissionInput, u: Trace, p: Publication)
    requires Run(u) && Continues(Then(before, SubmitOp(owner, key, input)), u)
    requires Attempt(Now(before), SubmitOp(owner, key, input)) == Candidate(p)
    ensures ReturnsEntity(Now(u), Attempt(Now(u), SubmitOp(owner, key, input)), p)
  {
    hide Run, Now, Continues, Inv, Later, KeyUsed, Publish, SubmitStep, EventFor, EventKeyUsed, ShowsEntity, LifecycleOf, KeysOnce,
         NoWorkerKeys, ReceiptKeyUsed, RecoveryKeyUsed, ExecuteCommand, ExtendCase, ObserveDelivery, WorkerStep, AdmitApplication,
         PublishOutcome, RecoverStep;
    AcceptedStands(before, SubmitOp(owner, key, input), u, p);
    match p
    case Submitting(xs, bs, schema, e) =>
      NewEventLasts(Now(before), xs, bs, schema, e, Now(u));
      FoundEvent(Now(u).events, owner, key, e);
      InvKeys(Now(u));
      InvLifecycle(Now(u));
      EventHolder(Now(u), OwnedKey(owner, key));
      EventRecorded(Now(u), owner, key, input, e);
  }

  lemma FoundEvent(es: seq<Event>, owner: ParentId, key: Key, e: Event)
    requires EventFor(es, owner, key) == Some(e)
    ensures EventKeyUsed(es, owner, key)
  {
  }
}
