/** Which release operations are open: while the reserve holds more than stranded worker agreements and bound
    announcements, some owner, lead, worker or operator can spend a slot now. */
module Draining {
  import opened ControlTypes
  import opened Records
  import opened Invariant
  import opened Steps
  import opened Runs
  import opened Capacity
  import opened Ledger
  import opened Stranding
  import opened PeerRecords
  import Lifecycle
  import SubmissionSoundness
  import Submissions

  /** A key no ledger holds under any owner. */
  predicate Unused(s: Control, key: Key) {
    key.PublicKey? && (forall r :: r in s.receipts ==> r.key != key) && (forall r :: r in s.recoveries ==> r.recovery.key != key) &&
    forall e :: e in s.events ==> e.key != key
  }

  lemma UnusedIsFresh(s: Control, key: Key, owner: ParentId)
    requires Unused(s, key)
    ensures !ReceiptKeyUsed(s.receipts, owner, key) && !RecoveryKeyUsed(s.recoveries, owner, key) && !EventKeyUsed(s.events, owner, key)
  {
  }

  /** The operation is accepted now and spends a slot. */
  predicate Open(s: Control, op: Op) {
    Frees(s, op) && Accepts(s, op)
  }

  ghost predicate SomeOpen(s: Control) {
    exists op :: Open(s, op)
  }

  /** A release command that applies is accepted under an unused key. */
  lemma CommandOpens(s: Control, owner: ParentId, command: Command, newId: Id)
    requires Unused(s, command.key) && CommandBody(s, owner, command, false, newId).Ok? && CommandFrees(s, command) && !command.ReleaseCase?
    ensures SomeOpen(s)
  {
    hide Unused, CommandBody, ReceiptKeyUsed, RecoveryKeyUsed, EventKeyUsed, ExtendCase, ObserveDelivery, WorkerStep, AdmitApplication,
         PublishOutcome, SubmitStep, RecoverStep, CasePendingUnsettled, HasNote, HasWork, HasBinding, SubmissionFrees;
    UnusedIsFresh(s, command.key, owner);
    UnusedIsPublic(s, command.key);
    assert Open(s, CommandOp(owner, command, false, newId));
  }

  lemma UnusedIsPublic(s: Control, key: Key)
    requires Unused(s, key)
    ensures !key.WorkerKey?
  {
  }

  lemma SubmissionOpens(s: Control, key: Key, owner: ParentId, input: SubmissionInput)
    requires Unused(s, key) && Submissions.Submit(s, owner, key, input).Ok? && SubmissionFrees(s, input)
    ensures SomeOpen(s)
  {
    hide Unused, Submissions.Submit, SubmissionFrees, CommandFrees, ReceiptKeyUsed, RecoveryKeyUsed, EventKeyUsed, ExecuteCommand, ExtendCase,
         ObserveDelivery, WorkerStep, AdmitApplication, PublishOutcome, RecoverStep, SubmissionAnswer;
    UnusedIsFresh(s, key, owner);
    UnusedIsPublic(s, key);
    assert Open(s, SubmitOp(owner, key, input));
  }

  lemma RecoveryOpens(s: Control, operator: ParentId, r: Recovery)
    requires Unused(s, r.key) && !Blank(r.statement) && r.epoch == s.epoch && ApplyRecovery(s, r).Ok? && r.action.RecoverReleaseCase?
    ensures SomeOpen(s)
  {
    hide Unused, ApplyRecovery, Blank, ReceiptKeyUsed, RecoveryKeyUsed, EventKeyUsed, ExecuteCommand, ExtendCase, ObserveDelivery, WorkerStep,
         AdmitApplication, PublishOutcome, SubmitStep, CommandFrees, SubmissionFrees;
    UnusedIsFresh(s, r.key, operator);
    UnusedIsPublic(s, r.key);
    assert Open(s, RecoverOp(operator, r));
  }

  lemma WorkFound(ws: seq<Work>, w: Work)
    requires UniqueWorks(ws) && w in ws
    ensures WorkIndex(ws, w.id) < |ws| && ws[WorkIndex(ws, w.id)] == w
  {
  }

  function WorkRelease(key: Key, w: Work): Command {
    if w.state == Active then CloseWork(key, w.id, w.revision) else ShareWork(key, w.id, w.revision, [])
  }

  /** A work that owes its close or its revocation can be closed or unshared by its owner. */
  lemma WorkReleases(s: Control, key: Key, w: Work)
    requires UniqueWorks(s.works) && !key.WorkerKey? && w in s.works && WorkSlots(w) > 0
    ensures CommandBody(s, w.owner, WorkRelease(key, w), false, "").Ok? && CommandFrees(s, WorkRelease(key, w))
  {
    hide UniqueWorks, CommandSchema, PostedNote, AnsweredNote, ClaimedCase, ChangedCase, OwnCase, ActionOf, Register;
    WorkFound(s.works, w);
    assert CanReadWork(w.owner, w);
  }

  lemma CaseLed(s: Control, c: Case)
    requires CasesOk(s.cases, s.revision) && c in s.cases
    ensures CaseIndex(s.cases, c.id) < |s.cases| && s.cases[CaseIndex(s.cases, c.id)] == c && c.lead in c.members
  {
    var i :| 0 <= i < |s.cases| && s.cases[i] == c;
    assert CaseOk(s.cases[i], s.revision) && UniqueCases(s.cases);
  }

  /** An active case can be settled by its lead while an effect is possible, and released by the operator otherwise. */
  lemma CaseReleases(s: Control, key: Key, c: Case)
    requires CasesOk(s.cases, s.revision) && c in s.cases && CaseSlots(c) > 0
    ensures c.effect == Possible ==> CommandBody(s, c.lead, CaseSettlement(key, c), false, "").Ok?
    ensures c.effect != Possible ==> ApplyRecovery(s, CaseRelease(key, s.epoch, c)).Ok?
  {
    hide CasesOk, CommandSchema, PostedNote, AnsweredNote, ClaimedCase, ChangedWork, OwnWork, ActionOf, Register, CanReadCase, InputsVisible,
         VisibleWork, RecoveredWork;
    CaseLed(s, c);
  }

  function CaseSettlement(key: Key, c: Case): Command { SettleExternal(key, c.id, c.revision, c.generation) }

  function CaseRelease(key: Key, epoch: Id, c: Case): Recovery {
    Recovery(key, epoch, c.lead, c.revision, "release", c.id, RecoverReleaseCase(c.generation))
  }

  lemma NotBlank()
    ensures !Blank("release")
  {
    assert "release"[0] == 'r';
  }

  /** A worker's open agreement that its own run can no longer withdraw. */
  predicate Stranded(s: Control, n: Note) {
    WorkerOwed(s.receipts, n) && !Withdrawable(s, n)
  }

  /** An open agreement a parent posted can be withdrawn by its author, whatever it can still read. */
  lemma ParentNoteReleases(s: Control, key: Key, n: Note)
    requires UniqueNotes(s.notes) && n in s.notes && NoteSlots(n) > 0 && !WorkerOwed(s.receipts, n)
    ensures CommandBody(s, n.author, WithdrawNote(key, n.id), false, "").Ok? && CommandFrees(s, WithdrawNote(key, n.id))
  {
    hide UniqueNotes, NoteReadable, CommandSchema, PostedNote, ClaimedCase, ChangedWork, OwnWork, ActionOf, Register, ChangedCase, OwnCase,
         PeerAckAllowed;
    NoteFound(s.notes, n);
  }

  lemma AnnouncementFound(s: Control, a: Announcement)
    requires SubmissionSoundness.LifecycleOf(s) && a in s.announcements
    ensures AnnouncementIndex(s.announcements, a.id) < |s.announcements| && s.announcements[AnnouncementIndex(s.announcements, a.id)] == a
  {
    hide Lifecycle.AnnouncementOk, Lifecycle.BindingOk, Lifecycle.EventOk, Lifecycle.UniqueRequests;
  }

  lemma AnnouncementReleases(s: Control, key: Key, a: Announcement)
    requires SubmissionSoundness.LifecycleOf(s) && a in s.announcements && a.state == Unresolved
    ensures Submissions.Submit(s, a.owner, key, WithdrawInput(a.id, a.revision)).Ok?
  {
    hide SubmissionSoundness.LifecycleOf, AnnouncementIndex, Submissions.Announce, Submissions.Bind, Submissions.Dispose, Submissions.Terminate,
         Submissions.SubmissionSchema;
    AnnouncementFound(s, a);
  }

  lemma BindingFound(s: Control, b: Binding)
    requires SubmissionSoundness.LifecycleOf(s) && b in s.bindings
    ensures BindingIndex(s.bindings, b.taskId) < |s.bindings| && s.bindings[BindingIndex(s.bindings, b.taskId)] == b
  {
    hide Lifecycle.AnnouncementOk, Lifecycle.BindingOk, Lifecycle.EventOk, Lifecycle.UniqueRequests;
  }

  function BindingRelease(b: Binding): SubmissionInput {
    if b.state == Settled then TerminalInput(b.taskId, b.requestKey, b.link, Terminal(1, 1, Completed))
    else ReleaseInput(b.taskId, b.requestKey, b.link)
  }

  /** A settled binding takes its terminal evidence, an unannounced bound one its release. */
  lemma BindingReleases(s: Control, key: Key, b: Binding)
    requires SubmissionSoundness.LifecycleOf(s) && b in s.bindings && BindingSlots(b) > 0
    ensures Submissions.Submit(s, b.owner, key, BindingRelease(b)).Ok? && SubmissionFrees(s, BindingRelease(b))
  {
    hide SubmissionSoundness.LifecycleOf, BindingIndex, Submissions.Announce, Submissions.Bind, Submissions.WithdrawAnnouncement,
         Submissions.SubmissionSchema, Submissions.HoldsTask;
    BindingFound(s, b);
  }

  // ---------- the whole reserve ----------

  function HeldNotes(s: Control): nat {
    Sum(s.notes, (n: Note) => One(Stranded(s, n)))
  }

  function HeldAnnouncements(s: Control): nat {
    Sum(s.announcements, (a: Announcement) => One(a.state == AnnouncementBound))
  }

  lemma {:induction false} Heavier<X>(xs: seq<X>, a: X -> nat, b: X -> nat)
    requires Sum(xs, a) > Sum(xs, b)
    ensures exists i :: 0 <= i < |xs| && a(xs[i]) > b(xs[i])
  {
    var last := |xs| - 1;
    if a(xs[last]) <= b(xs[last]) {
      Heavier(xs[..last], a, b);
      var i :| 0 <= i < |xs[..last]| && a(xs[..last][i]) > b(xs[..last][i]);
      assert a(xs[i]) > b(xs[i]);
    }
  }

  lemma Heavy<X>(xs: seq<X>, a: X -> nat, b: X -> nat) returns (x: X)
    requires Sum(xs, a) > Sum(xs, b)
    ensures x in xs && a(x) > b(x)
  {
    Heavier(xs, a, b);
    var i :| 0 <= i < |xs| && a(xs[i]) > b(xs[i]);
    x := xs[i];
  }

  lemma Owing<X>(xs: seq<X>, a: X -> nat) returns (x: X)
    requires Sum(xs, a) > 0
    ensures x in xs && a(x) > 0
  {
    SumHolds(xs, a);
    var i :| 0 <= i < |xs| && a(xs[i]) > 0;
    x := xs[i];
  }

  /** Whatever the reserve holds beyond stranded agreements and bound announcements can be freed now. */
  lemma SomeReleaseIsOpen(s: Control, key: Key)
    requires Inv(s) && Unused(s, key) && Slots(s) > HeldNotes(s) + HeldAnnouncements(s)
    ensures SomeOpen(s)
  {
    hide FieldsFit, LedgersFit, LedgersRefer, Enrolled, HistoryExact, KeysOnce, NoWorkerKeys, SubmissionSoundness.LifecycleOf, CasesKnown,
         NotesKnown, IdsDisjoint, CasesOk, NoteOk, OneWriter, WorkOk, UniqueWorks, UniqueNotes, Unused, WorkSlots, CaseSlots, BindingSlots, Sum,
         Attempt, CommandBody, ApplyRecovery, Submissions.Submit, Blank, WorkRelease, BindingRelease, Withdraws, Withdrawable, WorkerPosted;
    UnusedIsPublic(s, key);
    if Sum(s.works, WorkSlots) > 0 {
      var w := Owing(s.works, WorkSlots);
      WorkReleases(s, key, w);
      WorkReleaseIs(key, w);
      CommandOpens(s, w.owner, WorkRelease(key, w), "");
    } else if Sum(s.cases, CaseSlots) > 0 {
      var c := Owing(s.cases, CaseSlots);
      CaseReleases(s, key, c);
      NotBlank();
      if c.effect == Possible { CommandOpens(s, c.lead, CaseSettlement(key, c), ""); }
      else { RecoveryOpens(s, c.lead, CaseRelease(key, s.epoch, c)); }
    } else if Sum(s.bindings, BindingSlots) > 0 {
      var b := Owing(s.bindings, BindingSlots);
      BindingReleases(s, key, b);
      SubmissionOpens(s, key, b.owner, BindingRelease(b));
    } else if Sum(s.announcements, AnnouncementSlots) > HeldAnnouncements(s) {
      var a := Heavy(s.announcements, AnnouncementSlots, (a: Announcement) => One(a.state == AnnouncementBound));
      AnnouncementReleases(s, key, a);
      SubmissionOpens(s, key, a.owner, WithdrawInput(a.id, a.revision));
    } else {
      var n := Heavy(s.notes, NoteSlots, (n: Note) => One(Stranded(s, n)));
      if WorkerOwed(s.receipts, n) {
        var op := PosterWithdraws(s, n);
        assert Open(s, op);
      } else {
        ParentNoteReleases(s, key, n);
        CommandOpens(s, n.author, WithdrawNote(key, n.id), "");
      }
    }
  }

  lemma WorkReleaseIs(key: Key, w: Work)
    ensures WorkRelease(key, w).key == key && !WorkRelease(key, w).ReleaseCase?
  {
  }
}
