/** The capacity reserve: every retained claim that still has to be closed holds one slot of ledger space,
    so the operation that closes it always fits. */
module Capacity {
  import opened ControlTypes
  import opened Records
  import opened Publications
  import opened Shapes
  import opened Steps
  import Ledger
  import PeerRecords
  import Submissions

  // ---------- the slots owed ----------

  function Sum<T>(xs: seq<T>, weight: T -> nat): (n: nat) {
    if xs == [] then 0 else Sum(xs[..|xs| - 1], weight) + weight(xs[|xs| - 1])
  }

  function One(b: bool): nat { if b then 1 else 0 }

  /** An active work owes its close, a shared one its complete revocation. */
  function WorkSlots(w: Work): nat { One(w.state == Active) + One(w.readers != []) }

  /** An active case owes its release, and its settlement first while an effect is possible. */
  function CaseSlots(c: Case): nat {
    if c.state == Active then if c.effect == Possible then 2 else 1 else 0
  }

  function NoteSlots(n: Note): nat { One(!n.withdrawn && n.kind == AgreementProposal) }
  function AnnouncementSlots(a: Announcement): nat { One(a.state == Unresolved || a.state == AnnouncementBound) }
  function BindingSlots(b: Binding): nat { One(b.state == Settled || (b.state == Bound && b.announcement.None?)) }

  function Slots(s: Control): nat {
    Sum(s.works, WorkSlots) + Sum(s.cases, CaseSlots) + Sum(s.notes, NoteSlots) +
    Sum(s.announcements, AnnouncementSlots) + Sum(s.bindings, BindingSlots)
  }

  function Entries(s: Control): nat { |s.receipts| + |s.recoveries| + |s.events| }

  predicate NotesFit(s: Control) {
    forall i :: 0 <= i < |s.notes| ==> s.notes[i].bytes <= s.limits.noteBytes
  }

  /** The check every publication passes; `bytes` is the length of the serialized state. */
  predicate CapacityOk(s: Control, bytes: nat) {
    bytes + Slots(s) * CONTROL_RELEASE_BYTES <= CONTROL_MAX_BYTES &&
    |s.works| <= s.limits.works && |s.cases| <= s.limits.cases && |s.notes| <= s.limits.notes &&
    Entries(s) + Slots(s) <= s.limits.receipts && NotesFit(s)
  }

  // ---------- sums under one change ----------

  lemma SumAppend<X>(xs: seq<X>, x: X, weight: X -> nat)
    ensures Sum(xs + [x], weight) == Sum(xs, weight) + weight(x)
  {
    assert (xs + [x])[..|xs|] == xs;
  }

  lemma {:induction false} SumUpdate<X>(xs: seq<X>, i: nat, x: X, weight: X -> nat)
    requires i < |xs|
    ensures Sum(xs[i := x], weight) + weight(xs[i]) == Sum(xs, weight) + weight(x)
  {
    var last := |xs| - 1;
    if i == last {
      assert xs[i := x][..last] == xs[..last];
    } else {
      assert xs[i := x][..last] == xs[..last][i := x];
      SumUpdate(xs[..last], i, x, weight);
    }
  }

  lemma {:induction false} SumHolds<X>(xs: seq<X>, weight: X -> nat)
    requires Sum(xs, weight) > 0
    ensures exists i :: 0 <= i < |xs| && weight(xs[i]) > 0
  {
    var last := |xs| - 1;
    if weight(xs[last]) == 0 {
      SumHolds(xs[..last], weight);
      var i :| 0 <= i < |xs[..last]| && weight(xs[..last][i]) > 0;
      assert weight(xs[i]) > 0;
    }
  }

  /** Weight after minus weight before. */
  function ChangeGain(s: Control, ch: Change): int {
    match ch
    case AddWork(w) => WorkSlots(w)
    case SetWork(i, w) => if i < |s.works| then WorkSlots(w) - WorkSlots(s.works[i]) else 0
    case AddCase(c) => CaseSlots(c)
    case SetCase(i, c) => if i < |s.cases| then CaseSlots(c) - CaseSlots(s.cases[i]) else 0
    case AddNote(n) => NoteSlots(n)
    case SetNote(i, n) => if i < |s.notes| then NoteSlots(n) - NoteSlots(s.notes[i]) else 0
  }

  function Gain(s: Control, p: Publication): int {
    match p
    case Ordinary(ch, _, _) => ChangeGain(s, ch)
    case Recovering(ch, _, _) => ChangeGain(s, ch)
    case Submitting(xs, bs, _, _) =>
      Sum(xs, AnnouncementSlots) - Sum(s.announcements, AnnouncementSlots) + Sum(bs, BindingSlots) - Sum(s.bindings, BindingSlots)
  }

  lemma PutGain(s: Control, ch: Change)
    ensures Slots(Put(s, ch)) == Slots(s) + ChangeGain(s, ch)
  {
    match ch
    case AddWork(w) => SumAppend(s.works, w, WorkSlots);
    case SetWork(i, w) => if i < |s.works| { SumUpdate(s.works, i, w, WorkSlots); }
    case AddCase(c) => SumAppend(s.cases, c, CaseSlots);
    case SetCase(i, c) => if i < |s.cases| { SumUpdate(s.cases, i, c, CaseSlots); }
    case AddNote(n) => SumAppend(s.notes, n, NoteSlots);
    case SetNote(i, n) => if i < |s.notes| { SumUpdate(s.notes, i, n, NoteSlots); }
  }

  /** The reserve moves by exactly the weight the publication moves, and the ledgers by one entry. */
  lemma PublishGain(s: Control, p: Publication)
    ensures Slots(Publish(s, p)) == Slots(s) + Gain(s, p)
    ensures Entries(Publish(s, p)) == Entries(s) + 1
  {
    match p
    case Ordinary(ch, _, _) => PutGain(s, ch);
    case Recovering(ch, _, _) => PutGain(s, ch);
    case Submitting(_, _, _, _) =>
  }

  // ---------- spending one slot always fits ----------

  /** A publication that spends one slot and adds no record. */
  predicate SpendsOne(s: Control, p: Publication) {
    Gain(s, p) == -1 &&
    match p
    case Ordinary(ch, _, _) => AddsNothing(s, ch)
    case Recovering(ch, _, _) => AddsNothing(s, ch)
    case Submitting(_, _, _, _) => true
  }

  predicate AddsNothing(s: Control, ch: Change) {
    match ch
    case SetNote(i, n) => i < |s.notes| ==> n.bytes == s.notes[i].bytes
    case _ => ch.SetWork? || ch.SetCase?
  }

  /** Spending a slot pays for its own entry: the check that held before holds after. */
  lemma SpendingFits(s: Control, p: Publication, bytes: nat, later: nat)
    requires CapacityOk(s, bytes) && SpendsOne(s, p) && later <= bytes + CONTROL_RELEASE_BYTES
    ensures CapacityOk(Publish(s, p), later)
    ensures Slots(Publish(s, p)) == Slots(s) - 1
  {
    hide Slots, Gain;
    PublishGain(s, p);
  }

  // ---------- the operations that spend one slot ----------

  /** Closing, complete revocation, release, external settlement and withdrawal of what is still owed. */
  predicate CommandFrees(s: Control, command: Command) {
    match command
    case CloseWork(_, _, _) => true
    case ShareWork(_, id, _, readers) => readers == [] && HasWork(s.works, id) && s.works[WorkIndex(s.works, id)].readers != []
    case ReleaseCase(_, _, _, _) => true
    case SettleExternal(_, _, _, _) => true
    case WithdrawNote(_, id) => HasNote(s.notes, id) && s.notes[NoteIndex(s.notes, id)].kind == AgreementProposal
    case _ => false
  }

  predicate SubmissionFrees(s: Control, input: SubmissionInput) {
    match input
    case WithdrawInput(_, _) => true
    case TerminalInput(_, _, _, _) => true
    case ReleaseInput(taskId, _, _) => HasBinding(s.bindings, taskId) && s.bindings[BindingIndex(s.bindings, taskId)].announcement.None?
    case _ => false
  }

  predicate Frees(s: Control, op: Op) {
    match op
    case CommandOp(_, command, _, _) => CommandFrees(s, command)
    case WorkerOp(_, _, operation, _, _) => operation.WorkerWithdraw?
    case SubmitOp(_, _, input) => SubmissionFrees(s, input)
    case RecoverOp(_, r) => r.action.RecoverCloseWork? || r.action.RecoverReleaseCase? || r.action.RecoverSettleCase?
    case _ => false
  }

  lemma CommandSpends(s: Control, owner: ParentId, command: Command, elected: bool, newId: Id, p: Publication)
    requires CommandFrees(s, command) && Ledger.CommandBody(s, owner, command, elected, newId) == Ok(p)
    ensures SpendsOne(s, p)
  {
    hide Ledger.CommandAdmitted, CanReadSelectedWork, CanReadCase, NoteReadable, Ledger.CommandSchema, Ledger.PostedNote, Ledger.ClaimedCase,
         Ledger.InputsVisible, Ledger.ActionOf, Ledger.Register, PeerRecords.PeerAckAllowed;
  }

  lemma WorkerWithdrawSpends(s: Control, actor: WorkerActor, key: Key, noteId: Id, bytes: nat, newId: Id, p: Publication)
    requires Ledger.WorkerBody(s, actor, key, WorkerWithdraw(noteId), bytes, newId) == Ok(p)
    ensures SpendsOne(s, p)
  {
    hide Ledger.WorkerCase, PeerRecords.WorkerParties, Ledger.PostedByRun, PeerRecords.ProposalCurrent, PeerRecords.PeerPostAllowed,
         PeerRecords.PeerAckAllowed, Ledger.CaseNote, SameSet;
  }

  lemma SubmissionSpends(s: Control, owner: ParentId, key: Key, input: SubmissionInput, p: Publication)
    requires SubmissionFrees(s, input) && Submissions.Submit(s, owner, key, input) == Ok(p)
    ensures SpendsOne(s, p)
  {
    hide Submissions.Announce, Submissions.Bind, Submissions.SubmissionSchema, Sum;
    if input.WithdrawInput? {
      var i := AnnouncementIndex(s.announcements, input.id);
      SumUpdate(s.announcements, i, p.announcements[i], AnnouncementSlots);
    } else {
      var i := BindingIndex(s.bindings, input.taskId);
      SumUpdate(s.bindings, i, p.bindings[i], BindingSlots);
    }
  }

  lemma RecoverySpends(s: Control, operator: ParentId, r: Recovery, p: Publication)
    requires Frees(s, RecoverOp(operator, r)) && Ledger.RecoverStep(s, operator, r) == Ledger.Candidate(p)
    ensures SpendsOne(s, p)
  {
    hide VisibleWork, Ledger.Blank, RecoveryFor, ReceiptKeyUsed, EventKeyUsed, CommandFrees, SubmissionFrees;
  }

  /** Every accepted release operation passes the capacity check that the state before it passed, as long as
      its entry adds no more than the reserved bytes, and it spends exactly one slot. */
  lemma ReleaseNeverStarves(s: Control, op: Op, bytes: nat, later: nat)
    requires CapacityOk(s, bytes) && Frees(s, op) && Accepts(s, op) && later <= bytes + CONTROL_RELEASE_BYTES
    ensures CapacityOk(Step(s, op), later) && Slots(Step(s, op)) == Slots(s) - 1
  {
    hide CapacityOk, Slots, SpendsOne, Attempt, Publish, Ledger.CommandBody, Ledger.ExtendBody, Ledger.ObserveBody, Ledger.WorkerBody,
         Ledger.AdmitApplication, Ledger.PublishOutcome, Submissions.Submit, Ledger.RecoverStep, Ledger.CasePendingUnsettled, Ledger.Decodable,
         CommandFrees, SubmissionFrees, CommandShape, WorkerShape, ApplicationShape, CaseShape, RecoveryShape;
    var p := Attempt(s, op).publication;
    Shapes.Shapes(s, op, p);
    match op {
      case CommandOp(owner, command, elected, newId) => CommandSpends(s, owner, command, elected, newId, p);
      case WorkerOp(actor, k, operation, bytes, newId) => WorkerWithdrawSpends(s, actor, Ledger.MainKey(actor, k), operation.noteId, bytes, newId, p);
      case SubmitOp(owner, key, input) => SubmissionSpends(s, owner, key, input, p);
      case RecoverOp(operator, r) => RecoverySpends(s, operator, r, p);
    }
    SpendingFits(s, p, bytes, later);
  }

  // ---------- draining ----------

  /** Release operations applied to a state one after the other, with the serialized length after each. */
  datatype Drain = Full(start: Control, size: nat) | Freed(before: Drain, op: Op, size: nat)

  function First(d: Drain): Drain {
    match d case Full(_, _) => d case Freed(before, _, _) => First(before)
  }

  function Left(d: Drain): Control {
    match d case Full(start, _) => start case Freed(before, op, _) => Step(Left(before), op)
  }

  function Releases(d: Drain): nat {
    match d case Full(_, _) => 0 case Freed(before, _, _) => Releases(before) + 1
  }

  /** Each operation is an accepted release and adds at most the reserved bytes. */
  predicate Drains(d: Drain) {
    match d
    case Full(_, _) => true
    case Freed(before, op, size) =>
      Drains(before) && Frees(Left(before), op) && Accepts(Left(before), op) && size <= before.size + CONTROL_RELEASE_BYTES
  }

  /** The drain's state is within capacity. */
  predicate WithinCapacity(d: Drain) { CapacityOk(Left(d), d.size) }

  /** A drain never meets the capacity limit, and the reserve counts it down exactly. */
  lemma {:induction false} DrainFits(d: Drain)
    requires Drains(d) && WithinCapacity(First(d))
    ensures WithinCapacity(d) && Slots(Left(d)) + Releases(d) == Slots(Left(First(d)))
  {
    hide CapacityOk, Slots, Frees, Accepts, Step;
    match d
    case Full(_, _) =>
    case Freed(before, op, size) =>
      DrainFits(before);
      ReleaseNeverStarves(Left(before), op, before.size, size);
  }

  // ---------- the two dispositions outside the guarantee ----------

  predicate LeavesReserve(s: Control, input: SubmissionInput) {
    match input
    case SettleInput(_, _, _) => true
    case ReleaseInput(taskId, _, _) => HasBinding(s.bindings, taskId) && s.bindings[BindingIndex(s.bindings, taskId)].announcement.Some?
    case _ => false
  }

  /** What a disposition leaves: the binding's own weight, its announcement's, or one for the other. */
  lemma DispositionGain(s: Control, owner: ParentId, key: Key, input: SubmissionInput, p: Publication)
    requires LeavesReserve(s, input) && Submissions.Submit(s, owner, key, input) == Ok(p)
    ensures Gain(s, p) == 0
  {
    hide Submissions.Announce, Submissions.Bind, Submissions.Terminate, Submissions.WithdrawAnnouncement, Submissions.SubmissionSchema, Sum;
    var i := BindingIndex(s.bindings, input.taskId);
    SumUpdate(s.bindings, i, p.bindings[i], BindingSlots);
    if s.bindings[i].announcement.Some? {
      var k := AnnouncementIndex(s.announcements, s.bindings[i].announcement.value.id);
      SumUpdate(s.announcements, k, p.announcements[k], AnnouncementSlots);
    }
  }

  /** Settling, and releasing an announced binding, leave the reserve as it is: they fit exactly when one
      more entry fits beside it. */
  lemma DispositionNeedsRoom(s: Control, owner: ParentId, key: Key, input: SubmissionInput, p: Publication, bytes: nat, later: nat)
    requires CapacityOk(s, bytes) && LeavesReserve(s, input) && Submissions.Submit(s, owner, key, input) == Ok(p)
    ensures CapacityOk(Publish(s, p), later) <==>
            Entries(s) + 1 + Slots(s) <= s.limits.receipts && later + Slots(s) * CONTROL_RELEASE_BYTES <= CONTROL_MAX_BYTES
  {
    hide Slots, Gain, Submissions.Submit;
    DispositionGain(s, owner, key, input, p);
    PublishGain(s, p);
    SubmissionShapes(s, owner, key, input, p);
  }
}
