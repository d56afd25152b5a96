/** What an application's reservation guarantees in every interleaving: the reserved case keeps the version
    its application captured, its inputs and the revisions of the works it selects. */
module Reservations {
  import opened ControlTypes
  import opened Records
  import opened Publications
  import opened Invariant
  import opened Ledger
  import opened Service
  import opened Steps
  import opened Runs
  import opened Shapes
  import opened World
  import Capacity
  import ObservedCases
  import Retained
  import PeerRecords
  import SubmissionSoundness

  // ---------- applications ----------

  /** A captured state is an earlier one; at the same revision it is the current one. */
  predicate Earlier(captured: Control, s: Control) {
    captured.revision <= s.revision && (captured.revision == s.revision ==> captured == s)
  }

  predicate InputRevisionsKept(was: Control, c: Case, s: Control) {
    forall k :: 0 <= k < |c.inputs| ==> HasWork(was.works, c.inputs[k].workId) && WorkRevisionKept(was, s, c.inputs[k].workId)
  }

  /** The active case still has the version, the inputs and the selected work revisions it was captured with. */
  predicate CaseStands(captured: Control, caseId: Id, s: Control) {
    HasCase(captured.cases, caseId) && HasCase(s.cases, caseId) &&
    var c := captured.cases[CaseIndex(captured.cases, caseId)];
    c.state == Active && SameVersion(c, s.cases[CaseIndex(s.cases, caseId)]) && InputRevisionsKept(captured, c, s)
  }

  /** The application's case stands, and its admission is on record. */
  predicate Standing(f: Frame, s: Control) {
    FrameProposal(f).Some? && CaseStands(f.captured, f.actor.caseId, s) &&
    ReceiptKeyUsed(s.receipts, f.actor.owner, PendingKey(f.actor, f.operation))
  }

  /** What is captured and not yet admitted was read from an earlier state. */
  ghost predicate Waiting(w: World, s: Control) {
    (forall t :: t in w.pending ==> Earlier(w.pending[t].captured, s)) && (forall t :: t in w.looking ==> Earlier(w.looking[t].captured, s))
  }

  /** What holds a case finds it as it was captured. */
  ghost predicate Holding(w: World, s: Control) {
    (forall id :: id in w.held ==> w.held[id].actor.caseId == id && Standing(w.held[id], s)) &&
    (forall id :: id in w.shown ==> w.shown[id].actor.caseId == id && CaseStands(w.shown[id].captured, id, s))
  }

  /** Reserved cases are those of admitted applications and disclosures, each of one, none is in transition, and each still stands. */
  ghost predicate Reserved(w: World) {
    w.service.applications == w.held.Keys + w.shown.Keys && w.held.Keys !! w.shown.Keys &&
    w.service.applications !! w.service.transitionCases && Holding(w, w.service.state) && Waiting(w, w.service.state)
  }

  // ---------- an operation cannot touch a reserved case ----------

  /** The case is reserved, or the work is selected by a reserved case. */
  predicate Protected(v: Service, op: Op) {
    (forall id :: id in v.applications ==> !MayChangeCase(op, id)) &&
    forall i, k :: 0 <= i < |v.state.cases| && v.state.cases[i].id in v.applications && 0 <= k < |v.state.cases[i].inputs| ==>
      !MayChangeWork(op, v.state.cases[i].inputs[k].workId)
  }

  ghost predicate ReservedKnown(v: Service) {
    forall id :: id in v.applications ==> HasCase(v.state.cases, id)
  }

  lemma ExecuteProtected(v: Service, owner: ParentId, command: Command, elected: bool, newId: Id)
    requires ReservedKnown(v) && !CommandReserved(v, command)
    ensures Protected(v, CommandOp(owner, command, elected, newId))
  {
    forall i, k | 0 <= i < |v.state.cases| && v.state.cases[i].id in v.applications && 0 <= k < |v.state.cases[i].inputs|
      ensures !MayChangeWork(CommandOp(owner, command, elected, newId), v.state.cases[i].inputs[k].workId)
    {
      assert Selects(v.state.cases[i], v.state.cases[i].inputs[k].workId);
    }
  }

  lemma RecoverProtected(v: Service, operator: ParentId, r: Recovery)
    requires !RecoveryReserved(v, r)
    ensures Protected(v, RecoverOp(operator, r))
  {
    forall i, k | 0 <= i < |v.state.cases| && v.state.cases[i].id in v.applications && 0 <= k < |v.state.cases[i].inputs|
      ensures !MayChangeWork(RecoverOp(operator, r), v.state.cases[i].inputs[k].workId)
    {
      assert Selects(v.state.cases[i], v.state.cases[i].inputs[k].workId);
    }
  }

  lemma ExtendProtected(v: Service, owner: ParentId, key: Key, x: Extension)
    requires ReservedKnown(v) && !ExtensionBusy(v, x)
    ensures Protected(v, ExtendOp(owner, key, x))
  {
    hide SelectsTask;
  }

  lemma OtherProtected(v: Service, op: Op)
    requires !op.CommandOp? && !op.ExtendOp? && !op.RecoverOp?
    ensures Protected(v, op)
  {
  }

  /** A call that passed its guard respects every reservation. */
  lemma GuardedProtected(w: World, call: Section, op: Op)
    requires ReservedKnown(w.service) && Guarded(w, call) && OpOf(w, call) == Some(op)
    ensures Protected(w.service, op)
  {
    hide ReservedKnown, CommandReserved, SelectsTask, PeerCaseBusy, ExtensionBusy, RecoveryReserved, MayPublish, Selectable, Protected, SourceInputs,
         FrameProposal, FrameCase;
    match call
    case ExecuteCall(owner, command, _, elected, newId, _) => ExecuteProtected(w.service, owner, command, elected, newId);
    case ExtendCall(owner, key, x, _) => ExtendProtected(w.service, owner, key, x);
    case RecoverCall(operator, r, _) => RecoverProtected(w.service, operator, r);
    case _ => OtherProtected(w.service, op);
  }

  // ---------- what is reserved stands under every publication ----------

  lemma WorkRevisionKeptTransitive(a: Control, b: Control, c: Control, id: Id)
    requires HasWork(a.works, id) && WorkRevisionKept(a, b, id) && WorkRevisionKept(b, c, id)
    ensures WorkRevisionKept(a, c, id)
  {
  }

  lemma KeyStaysUsed(rs: seq<Receipt>, later: seq<Receipt>, owner: ParentId, key: Key)
    requires rs <= later && ReceiptKeyUsed(rs, owner, key)
    ensures ReceiptKeyUsed(later, owner, key)
  {
    var i :| 0 <= i < |rs| && rs[i].owner == owner && rs[i].key == key;
    assert later[i] == rs[i];
  }

  /** The publication touches what its operation may change, between records with unique identities. */
  predicate Touched(s: Control, op: Op, p: Publication) {
    Touches(s, op, p) && UniqueWorks(s.works) && UniqueWorks(Publish(s, p).works) && UniqueCases(s.cases) && UniqueCases(Publish(s, p).cases)
  }

  lemma CaseStandsKept(v: Service, op: Op, p: Publication, captured: Control, id: Id)
    requires Touched(v.state, op, p) && Protected(v, op) && id in v.applications && CaseStands(captured, id, v.state)
    ensures CaseStands(captured, id, Publish(v.state, p))
  {
    hide MayChangeCase, MayChangeWork, UniqueWorks, UniqueCases, Touches, Publish;
    var s, t := v.state, Publish(v.state, p);
    UntouchedCase(s, op, p, id);
    var c := captured.cases[CaseIndex(captured.cases, id)];
    forall k | 0 <= k < |c.inputs| ensures WorkRevisionKept(captured, t, c.inputs[k].workId) {
      UntouchedWork(s, op, p, c.inputs[k].workId);
      WorkRevisionKeptTransitive(captured, s, t, c.inputs[k].workId);
    }
  }

  /** An operation that respects the reservations leaves a standing application standing. */
  lemma StandingKept(v: Service, op: Op, p: Publication, f: Frame)
    requires Retained.Published(v.state, op, p) && Protected(v, op) && f.actor.caseId in v.applications && Standing(f, v.state)
    ensures Standing(f, Publish(v.state, p))
  {
    hide Inv, Retained.Later, Sound, Opened, Shape, Protected, CaseStands, Touches, ReceiptKeyUsed, UniqueWorks, UniqueCases;
    OpenedTouches(v.state, op, p);
    Retained.InvUnique(v.state);
    Retained.InvUnique(Publish(v.state, p));
    CaseStandsKept(v, op, p, f.captured, f.actor.caseId);
    KeyStaysUsed(v.state.receipts, Publish(v.state, p).receipts, f.actor.owner, PendingKey(f.actor, f.operation));
  }

  lemma EarlierKept(captured: Control, s: Control, t: Control)
    requires Earlier(captured, s) && t.revision == s.revision + 1
    ensures Earlier(captured, t)
  {
  }

  lemma HeldKnown(w: World)
    requires Reserved(w)
    ensures ReservedKnown(w.service)
  {
    hide ReceiptKeyUsed, SameVersion, InputRevisionsKept, Earlier, FrameProposal;
    forall id | id in w.service.applications ensures HasCase(w.service.state.cases, id) {
      if id in w.held.Keys { assert Standing(w.held[id], w.service.state); }
      else { assert id in w.shown.Keys && CaseStands(w.shown[id].captured, id, w.service.state); }
    }
  }

  /** What holds and what waits, on the state that a call leaves. */
  lemma OthersStay(w: World, call: Section)
    requires Inv(w.service.state) && AdmissibleCall(w, call) && Reserved(w)
    ensures Holding(w, After(w, call).service.state) && Waiting(w, After(w, call).service.state)
  {
    hide Inv, After, AdmissibleCall, Retained.Later, Sound, Opened, Shape, Guarded, OpOf, Protected, ReservedKnown, Standing, CaseStands, Earlier,
         Touches, UniqueWorks, UniqueCases;
    CallKeeps(w, call);
    var s, t := w.service.state, After(w, call).service.state;
    if t != s {
      ChangedIsGuarded(w, call);
      HeldKnown(w);
      var op, p :| CallPublished(w, call, op, p);
      GuardedProtected(w, call, op);
      OpenedTouches(s, op, p);
      Retained.InvUnique(s);
      Retained.InvUnique(t);
      forall id | id in w.held ensures Standing(w.held[id], t) { StandingKept(w.service, op, p, w.held[id]); }
      forall id | id in w.shown ensures CaseStands(w.shown[id].captured, id, t) { CaseStandsKept(w.service, op, p, w.shown[id].captured, id); }
      forall ticket | ticket in w.pending ensures Earlier(w.pending[ticket].captured, t) { EarlierKept(w.pending[ticket].captured, s, t); }
      forall ticket | ticket in w.looking ensures Earlier(w.looking[ticket].captured, t) { EarlierKept(w.looking[ticket].captured, s, t); }
    }
  }

  // ---------- admission ----------

  /** The frame's proposal and case are on record, and the case is active over known inputs. */
  predicate Framed(f: Frame) {
    FrameProposal(f).Some? &&
    match FrameCase(f)
    case Some(c) => c.state == Active && InputsKnown(f.captured.works, c)
    case None => false
  }

  lemma SelectableFrame(v: Service, f: Frame)
    requires Selectable(v, f.actor, f.noteId) && f.captured == v.state && CasesKnown(v.state.works, v.state.cases)
    ensures Framed(f) && f.actor.caseId !in v.applications && f.actor.caseId !in v.transitionCases
  {
    hide PeerRecords.ProposalCurrent, PeerRecords.WorkerParties, PostedByRun, CanReadCase, SelectedAuthority, ActorBound, SelectsTask, IsActorWork,
         Selects, PeerRecords.EntriesOf, SameSet, InputsKnown;
  }

  lemma InvKnown(s: Control)
    requires Inv(s)
    ensures CasesKnown(s.works, s.cases)
  {
    hide WorksOk, CasesOk, NotesOk, CasesKnown, NotesKnown, IdsDisjoint, FieldsFit, LedgersFit, Enrolled, LedgersRefer, HistoryExact, KeysOnce,
         NoWorkerKeys, SubmissionSoundness.LifecycleOf;
  }

  lemma AlreadyUsed(s: Control, f: Frame, digest: Digest, noteBytes: nat, newId: Id)
    requires AdmitApplication(s, f.actor, f.operation, f.noteId, digest, noteBytes, newId).AlreadyAdmitted?
    ensures ReceiptKeyUsed(s.receipts, f.actor.owner, PendingKey(f.actor, f.operation))
  {
    hide WorkerCase, UnresolvedApplication, ApplicableProposal, NoteInCase, ApplicationPosted;
  }

  lemma FreshStanding(f: Frame)
    requires Framed(f)
    ensures CaseStands(f.captured, f.actor.caseId, f.captured)
  {
  }

  lemma FrameStands(f: Frame, s: Control)
    requires Framed(f) && CaseStands(f.captured, f.actor.caseId, s) && ReceiptKeyUsed(s.receipts, f.actor.owner, PendingKey(f.actor, f.operation))
    ensures Standing(f, s)
  {
    hide CaseStands, ReceiptKeyUsed, FrameProposal, FrameCase, InputsKnown;
  }

  lemma PostedUsesKey(s: Control, actor: WorkerActor, key: Key, noteId: Id, newId: Id, p: Publication)
    requires ApplicationShape(actor, key, noteId, newId, p)
    ensures ReceiptKeyUsed(Publish(s, p).receipts, actor.owner, key)
    ensures Publish(s, p).works == s.works && Publish(s, p).cases == s.cases
  {
    hide NewNote;
    match p
    case Ordinary(AddNote(_), _, r) => assert Publish(s, p).receipts[|s.receipts|] == r;
  }

  lemma StandsOn(captured: Control, caseId: Id, t: Control)
    requires CaseStands(captured, caseId, captured) && t.works == captured.works && t.cases == captured.cases
    ensures CaseStands(captured, caseId, t)
  {
  }

  /** A case newly held: it was free and in no transition, and now it is reserved. */
  predicate NewlyHeld(v: Service, caseId: Id, u: Service) {
    caseId !in v.applications && caseId !in v.transitionCases && u.applications == v.applications + {caseId} && u.transitionCases == v.transitionCases
  }

  /** What the admission of a captured frame establishes: its case was free, is now reserved, and stands as captured. */
  lemma AdmittedStands(v: Service, f: Frame, digest: Digest, noteBytes: nat, newId: Id, bytes: nat)
    requires Inv(v.state) && Earlier(f.captured, v.state) && Admit(v, f, digest, noteBytes, newId, bytes).1.Done?
    ensures Standing(f, Admit(v, f, digest, noteBytes, newId, bytes).0.state)
    ensures NewlyHeld(v, f.actor.caseId, Admit(v, f, digest, noteBytes, newId, bytes).0)
  {
    hide Inv, AdmitApplication, Publish, Capacity.CapacityOk, ObservedCases.ObservedOk, Selectable, ReceiptKeyUsed, Standing, CaseStands, Framed,
         CasesKnown, ApplicationShape;
    assert Selectable(v, f.actor, f.noteId) && f.captured == v.state;
    InvKnown(v.state);
    SelectableFrame(v, f);
    FreshStanding(f);
    match AdmitApplication(v.state, f.actor, f.operation, f.noteId, digest, noteBytes, newId)
    case NotAdmitted(_) =>
    case AlreadyAdmitted =>
      AlreadyUsed(v.state, f, digest, noteBytes, newId);
      FrameStands(f, v.state);
    case Admits(p) =>
      AdmitShapes(v.state, f.actor, f.operation, f.noteId, digest, noteBytes, newId, p);
      PostedUsesKey(v.state, f.actor, PendingKey(f.actor, f.operation), f.noteId, newId, p);
      StandsOn(v.state, f.actor.caseId, Publish(v.state, p));
      FrameStands(f, Publish(v.state, p));
  }

  lemma HeldOneMore(w: World, v: Service, ticket: nat, f: Frame)
    requires Reserved(w) && Holding(w, v.state) && Waiting(w, v.state) && Standing(f, v.state) && NewlyHeld(w.service, f.actor.caseId, v)
    ensures Reserved(w.(service := v, pending := w.pending - {ticket}, held := w.held[f.actor.caseId := f]))
  {
    hide Standing, CaseStands, Earlier;
    assert w.held[f.actor.caseId := f].Keys == w.held.Keys + {f.actor.caseId};
  }

  lemma FewerWaiting(w: World, ticket: nat)
    requires Reserved(w)
    ensures Reserved(w.(pending := w.pending - {ticket}))
  {
    hide Standing, CaseStands, Earlier;
  }

  lemma WaitsEarlier(w: World, ticket: nat, f: Frame)
    requires Reserved(w) && FrameAt(w, ticket) == Some(f)
    ensures Earlier(f.captured, w.service.state)
  {
    hide Standing, CaseStands, Earlier;
  }

  lemma AdmitKeeps(w: World, ticket: nat, digest: Digest, noteBytes: nat, newId: Id, bytes: nat)
    requires Inv(w.service.state) && AdmissibleCall(w, AdmitCall(ticket, digest, noteBytes, newId, bytes)) && Reserved(w)
    ensures Reserved(AdmitIn(w, ticket, digest, noteBytes, newId, bytes))
  {
    hide Inv, AdmissibleCall, Holding, Waiting, Reserved, Standing, Earlier, NewlyHeld, AdmitApplication, Publish, Capacity.CapacityOk,
         ObservedCases.ObservedOk, Selectable, CaptureIn, LookIn, ShowIn, EndIn, FinishIn, BeginTransition, EndTransition, InvalidateCancelled,
         ReserveRetirement, ReleaseRetirement, Execute, Extend, Observe, Recover, Submit, Worker;
    OthersStay(w, AdmitCall(ticket, digest, noteBytes, newId, bytes));
    match FrameAt(w, ticket)
    case Some(f) =>
      var r := Admit(w.service, f, digest, noteBytes, newId, bytes);
      if r.1.Done? {
        WaitsEarlier(w, ticket, f);
        AdmittedStands(w.service, f, digest, noteBytes, newId, bytes);
        HeldOneMore(w, r.0, ticket, f);
      } else {
        FewerWaiting(w, ticket);
        assert r.0 == w.service;
        assert w.(service := w.service, pending := w.pending - {ticket}) == w.(pending := w.pending - {ticket});
      }
    case None =>
  }

  // ---------- sections that publish nothing ----------

  lemma CaptureKeeps(w: World, ticket: nat, actor: WorkerActor, k: string, noteId: Id)
    requires Reserved(w)
    ensures Reserved(CaptureIn(w, ticket, actor, k, noteId)) && Reserved(LookIn(w, ticket, actor))
  {
    hide Selectable, MayPublish, Standing, CaseStands;
  }

  /** A disclosure begins on a free case, which is as it was captured. */
  lemma LookStands(v: Service, l: Look)
    requires CasesKnown(v.state.works, v.state.cases) && Earlier(l.captured, v.state) && BeginPublication(v, l).1.Done?
    ensures CaseStands(l.captured, l.actor.caseId, v.state) && NewlyHeld(v, l.actor.caseId, BeginPublication(v, l).0)
    ensures BeginPublication(v, l).0.state == v.state
  {
    hide CanReadCase, SelectedAuthority, ActorBound, SelectsTask, IsActorWork, Selects, CasesKnown;
    KnownAt(v.state, WorkerCase(v.state, l.actor).value);
  }

  lemma KnownAt(s: Control, i: nat)
    requires CasesKnown(s.works, s.cases)
    ensures i < |s.cases| ==> InputsKnown(s.works, s.cases[i])
  {
  }

  lemma ShownOneMore(w: World, v: Service, ticket: nat, l: Look)
    requires Reserved(w) && v.state == w.service.state && CaseStands(l.captured, l.actor.caseId, v.state) && NewlyHeld(w.service, l.actor.caseId, v)
    ensures Reserved(w.(service := v, looking := w.looking - {ticket}, shown := w.shown[l.actor.caseId := l]))
  {
    hide Standing, CaseStands, Earlier;
    assert w.shown[l.actor.caseId := l].Keys == w.shown.Keys + {l.actor.caseId};
  }

  lemma FewerLooking(w: World, ticket: nat)
    requires Reserved(w)
    ensures Reserved(w.(looking := w.looking - {ticket}))
  {
    hide Standing, CaseStands, Earlier;
  }

  lemma LooksEarlier(w: World, ticket: nat, l: Look)
    requires Reserved(w) && LookOf(w, ticket) == Some(l)
    ensures Earlier(l.captured, w.service.state)
  {
    hide Standing, CaseStands, Earlier;
  }

  lemma ShowKeeps(w: World, ticket: nat)
    requires CasesKnown(w.service.state.works, w.service.state.cases) && Reserved(w)
    ensures Reserved(ShowIn(w, ticket))
  {
    hide Standing, CaseStands, BeginPublication, Reserved, NewlyHeld, Earlier, CasesKnown, LookOf;
    match LookOf(w, ticket)
    case Some(l) =>
      if BeginPublication(w.service, l).1.Done? {
        LooksEarlier(w, ticket, l);
        LookStands(w.service, l);
        ShownOneMore(w, BeginPublication(w.service, l).0, ticket, l);
      } else { FewerLooking(w, ticket); }
    case None =>
  }

  lemma EndKeeps(w: World, caseId: Id)
    requires Reserved(w)
    ensures Reserved(EndIn(w, caseId))
  {
    hide Standing, CaseStands, Earlier;
    assert EndIn(w, caseId).held.Keys == w.held.Keys - {caseId} && EndIn(w, caseId).shown.Keys == w.shown.Keys - {caseId};
  }

  /** The service changed, but not its state, its reserved cases or, but for cases of no reservation, its transition cases. */
  predicate SameReservations(v: Service, u: Service) {
    u.state == v.state && u.applications == v.applications && (v.applications !! v.transitionCases ==> u.applications !! u.transitionCases)
  }

  lemma SameKeeps(w: World, u: Service)
    requires Reserved(w) && SameReservations(w.service, u)
    ensures Reserved(w.(service := u))
  {
    hide Standing, CaseStands, Earlier;
  }

  lemma TransitionDisjoint(v: Service, task: Id)
    ensures SameReservations(v, BeginTransition(v, task).0)
  {
    hide Affected;
    var affected := Affected(v.state, task);
    if affected * (v.transitionCases + v.applications) == {} {
      forall x | x in v.applications ensures x !in affected {
        assert x in affected <==> x in affected * (v.transitionCases + v.applications);
      }
    }
  }

  lemma OthersSame(v: Service, task: Id, affected: set<Id>)
    ensures SameReservations(v, EndTransition(v, task, affected)) && SameReservations(v, InvalidateCancelled(v))
    ensures SameReservations(v, ReserveRetirement(v, task).0) && SameReservations(v, ReleaseRetirement(v, task))
  {
    hide Affected, EnrolledTask;
  }

  lemma MovedKeeps(w: World, t: Control)
    requires Reserved(w) && Holding(w, t) && Waiting(w, t)
    ensures Reserved(w.(service := w.service.(state := t)))
  {
    hide Standing, CaseStands, Earlier;
  }

  /** Every call keeps the reservations. */
  lemma ReservedKept(w: World, call: Section)
    requires Inv(w.service.state) && AdmissibleCall(w, call) && Reserved(w)
    ensures Reserved(After(w, call))
  {
    hide Inv, AdmissibleCall, Reserved, Holding, Waiting, CasesKnown, AdmitIn, FinishIn, CaptureIn, LookIn, ShowIn, EndIn, BeginTransition,
         EndTransition, InvalidateCancelled, ReserveRetirement, ReleaseRetirement, Execute, Extend, Observe, Recover, Submit, Worker,
         SameReservations;
    match call
    case AdmitCall(ticket, digest, noteBytes, newId, bytes) => AdmitKeeps(w, ticket, digest, noteBytes, newId, bytes);
    case CaptureCall(ticket, actor, k, noteId) => CaptureKeeps(w, ticket, actor, k, noteId);
    case LookCall(ticket, actor) => CaptureKeeps(w, ticket, actor, "", "");
    case PublicationCall(ticket) =>
      InvKnown(w.service.state);
      ShowKeeps(w, ticket);
    case EndCall(caseId) => EndKeeps(w, caseId);
    case BeginTransitionCall(task) =>
      TransitionDisjoint(w.service, task);
      SameKeeps(w, BeginTransition(w.service, task).0);
    case EndTransitionCall(task, affected) =>
      OthersSame(w.service, task, affected);
      SameKeeps(w, EndTransition(w.service, task, affected));
    case CancelledCall(task) =>
      OthersSame(w.service, task, {});
      SameKeeps(w, InvalidateCancelled(w.service));
    case ReserveCall(task) =>
      OthersSame(w.service, task, {});
      SameKeeps(w, ReserveRetirement(w.service, task).0);
    case ReleaseCall(task) =>
      OthersSame(w.service, task, {});
      SameKeeps(w, ReleaseRetirement(w.service, task));
    case _ =>
      LedgerCallSettles(w, call);
      OthersStay(w, call);
      MovedKeeps(w, After(w, call).service.state);
  }
}
