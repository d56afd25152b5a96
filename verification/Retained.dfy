/** What the allowed-step relation guarantees about a whole run, whoever computed the steps: ledgers only
    grow, note text never changes, acknowledgments only grow, and nothing closed reopens. */
module Retained {
  import opened ControlTypes
  import opened Records
  import opened Invariant
  import opened Lifecycle
  import opened Publications
  import opened Shapes
  import opened Steps
  import opened Runs
  import Ledger
  import T = Transition

  /** Everything a work was registered with stands; at the same revision all of it does. */
  predicate LaterWork(was: Work, w: Work) {
    was.id == w.id && was.workspaceId == w.workspaceId && was.inputOid == w.inputOid && was.objectFormat == w.objectFormat &&
    was.intent == w.intent && was.areas == w.areas && was.managed == w.managed &&
    was.revision <= w.revision && (was.state == Closed ==> w.state == Closed) && (was.revision == w.revision ==> w == was)
  }

  /** At the same revision only the delivery lists of a case move. */
  predicate LaterCase(was: Case, c: Case) {
    was.id == c.id && was.target == c.target && was.revision <= c.revision && was.generation <= c.generation &&
    (was.generation == c.generation ==> was.lead == c.lead) && (was.state == Closed ==> c == was) &&
    (was.revision == c.revision ==> c.(pending := was.pending, observed := was.observed) == was)
  }

  predicate WorkLasts(was: Work, t: Control) {
    HasWork(t.works, was.id) && LaterWork(was, t.works[WorkIndex(t.works, was.id)])
  }

  predicate CaseLasts(was: Case, t: Control) {
    HasCase(t.cases, was.id) && LaterCase(was, t.cases[CaseIndex(t.cases, was.id)])
  }

  predicate NoteLasts(was: Note, t: Control) {
    HasNote(t.notes, was.id) && T.NoteAllowed(was, t.notes[NoteIndex(t.notes, was.id)])
  }

  /** A binding keeps everything but its state and terminal evidence; released or ended it stands as it is. */
  predicate LaterBinding(was: Binding, b: Binding) {
    b.(state := was.state, terminal := was.terminal) == was && (was.state == Settled ==> b.state == Settled || b.state == Ended) &&
    (was.state == Released || was.state == Ended ==> b == was)
  }

  predicate BindingsLast(bs: seq<Binding>, later: seq<Binding>) {
    |bs| <= |later| && forall i :: 0 <= i < |bs| ==> LaterBinding(bs[i], later[i])
  }

  /** Everything retained in the earlier state is still there, in a later version of itself. */
  predicate Later(s: Control, t: Control) {
    s.epoch == t.epoch && s.repository == t.repository && s.limits == t.limits && s.revision <= t.revision && s.schema <= t.schema &&
    s.receipts <= t.receipts && s.recoveries <= t.recoveries && s.events <= t.events &&
    BindingsLast(s.bindings, t.bindings) &&
    (forall i :: 0 <= i < |s.works| ==> WorkLasts(s.works[i], t)) &&
    (forall i :: 0 <= i < |s.cases| ==> CaseLasts(s.cases[i], t)) &&
    (forall i :: 0 <= i < |s.notes| ==> NoteLasts(s.notes[i], t))
  }

  // ---------- one allowed step ----------

  lemma KeptWorkLasts(s: Control, t: Control, was: Work, receipt: Option<Receipt>, recovered: Option<Recovery>)
    requires T.WorkKept(s, t, was, receipt, recovered) && !T.Recovers(recovered, true, was.id)
    ensures WorkLasts(was, t)
  {
    hide T.GrantAllowed, T.WatchAllowed;
  }

  lemma KeptCaseLasts(s: Control, t: Control, was: Case, receipt: Option<Receipt>, recovered: Option<Recovery>)
    requires UniqueCases(s.cases) && UniqueCases(t.cases)
    requires T.CaseKept(s, t, was, receipt, recovered) && !T.Recovers(recovered, false, was.id)
    ensures CaseLasts(was, t)
  {
    hide Ledger.DeltaFor, Without, AddMember, InputIds, Selects, UniqueCases;
  }

  lemma RecoveredWorkLasts(s: Control, t: Control, r: Recovery, i: nat)
    requires UniqueWorks(s.works) && T.WorkRecoveryAllowed(s, t, r) && i < |s.works| && s.works[i].id == r.itemId
    ensures WorkLasts(s.works[i], t)
  {
    assert t.works[i].id == s.works[i].id;
    assert forall k :: 0 <= k < |t.works| ==> t.works[k].id == s.works[k].id;
    assert WorkIndex(t.works, s.works[i].id) == i;
  }

  lemma RecoveredCaseLasts(s: Control, t: Control, r: Recovery, i: nat)
    requires UniqueCases(s.cases) && T.CaseRecoveryAllowed(s, t, r) && i < |s.cases| && s.cases[i].id == r.itemId
    ensures CaseLasts(s.cases[i], t)
  {
    assert t.cases[i].id == s.cases[i].id;
    assert forall k :: 0 <= k < |t.cases| ==> t.cases[k].id == s.cases[k].id;
    assert CaseIndex(t.cases, s.cases[i].id) == i;
  }

  lemma RecordsLast(s: Control, t: Control, receipt: Option<Receipt>, recovered: Option<Recovery>)
    requires UniqueWorks(s.works) && UniqueCases(s.cases) && UniqueCases(t.cases) && T.RecordsKept(s, t, receipt, recovered)
    requires recovered.Some? ==> T.RecoveryAllowed(s, t, recovered.value)
    ensures forall i :: 0 <= i < |s.works| ==> WorkLasts(s.works[i], t)
    ensures forall i :: 0 <= i < |s.cases| ==> CaseLasts(s.cases[i], t)
    ensures forall i :: 0 <= i < |s.notes| ==> NoteLasts(s.notes[i], t)
  {
    hide T.WorkKept, T.CaseKept, WorkLasts, CaseLasts, T.WorkRecoveryAllowed, T.CaseRecoveryAllowed, UniqueWorks, UniqueCases;
    forall i | 0 <= i < |s.works| ensures WorkLasts(s.works[i], t) {
      assert T.WorkKept(s, t, s.works[i], receipt, recovered);
      if T.Recovers(recovered, true, s.works[i].id) {
        RecoveryTouchesWork(s, t, recovered.value);
        RecoveredWorkLasts(s, t, recovered.value, i);
      } else { KeptWorkLasts(s, t, s.works[i], receipt, recovered); }
    }
    forall i | 0 <= i < |s.cases| ensures CaseLasts(s.cases[i], t) {
      assert T.CaseKept(s, t, s.cases[i], receipt, recovered);
      if T.Recovers(recovered, false, s.cases[i].id) {
        RecoveryTouchesWork(s, t, recovered.value);
        RecoveredCaseLasts(s, t, recovered.value, i);
      } else { KeptCaseLasts(s, t, s.cases[i], receipt, recovered); }
    }
    forall i | 0 <= i < |s.notes| ensures NoteLasts(s.notes[i], t) { assert T.NoteKept(t, s.notes[i]); }
  }

  lemma RecoveryTouchesWork(s: Control, t: Control, r: Recovery)
    requires T.RecoveryAllowed(s, t, r)
    ensures Ledger.TouchesWork(r.action) ==> T.WorkRecoveryAllowed(s, t, r)
    ensures !Ledger.TouchesWork(r.action) ==> T.CaseRecoveryAllowed(s, t, r)
  {
  }

  lemma SubmittedBindings(s: Control, t: Control, e: Event)
    requires UniqueBindings(s.bindings) && T.SubmissionAllowed(s, t, e)
    ensures BindingsLast(s.bindings, t.bindings)
  {
    hide UniqueBindings, T.AnnouncementAdvances, HasAnnouncement;
    if e.kind == SettleEvent || e.kind == ReleaseEvent || e.kind == TerminalEvent {
      OnlyBinding(s.bindings, BindingIndex(s.bindings, e.itemId));
    }
  }

  lemma OnlyBinding(bs: seq<Binding>, k: nat)
    requires UniqueBindings(bs)
    ensures k < |bs| ==> forall i :: 0 <= i < |bs| && bs[i].taskId == bs[k].taskId ==> i == k
  {
  }

  /** One allowed step loses nothing. */
  lemma AllowedIsLater(s: Control, t: Control)
    requires UniqueWorks(s.works) && UniqueCases(s.cases) && UniqueBindings(s.bindings) && UniqueCases(t.cases) && T.Allowed(s, t)
    ensures Later(s, t)
  {
    hide T.RecordsKept, T.RecoveryAllowed, T.SubmissionAllowed, UniqueWorks, UniqueCases, UniqueBindings, WorkLasts, CaseLasts, NoteLasts,
         T.EnrollmentAllowed, T.SourceChangeAllowed, T.SchemaAllowed;
    if T.SubmissionStep(s, t) { SubmittedBindings(s, t, T.Last(t.events)); }
    if T.OrdinaryStep(s, t) { RecordsLast(s, t, Some(T.Last(t.receipts)), None); }
    else if T.RecoveryStep(s, t) { RecordsLast(s, t, None, Some(T.Last(t.recoveries).recovery)); }
    else { RecordsLast(s, t, None, None); }
  }

  // ---------- whole runs ----------

  lemma LaterReflexive(s: Control)
    requires UniqueWorks(s.works) && UniqueCases(s.cases) && UniqueNotes(s.notes)
    ensures Later(s, s)
  {
    forall i | 0 <= i < |s.works| ensures WorkLasts(s.works[i], s) {}
    forall i | 0 <= i < |s.cases| ensures CaseLasts(s.cases[i], s) {}
    forall i | 0 <= i < |s.notes| ensures NoteLasts(s.notes[i], s) {}
  }

  lemma LaterTransitive(s: Control, t: Control, u: Control)
    requires Later(s, t) && Later(t, u)
    ensures Later(s, u)
  {
    hide HasWork, HasCase, HasNote, BindingsLast;
    BindingsLastTransitive(s.bindings, t.bindings, u.bindings);
    forall i | 0 <= i < |s.works| ensures WorkLasts(s.works[i], u) {
      assert WorkLasts(s.works[i], t);
      WorkLastsTransitive(s.works[i], t, u);
    }
    forall i | 0 <= i < |s.cases| ensures CaseLasts(s.cases[i], u) {
      assert CaseLasts(s.cases[i], t);
      CaseLastsTransitive(s.cases[i], t, u);
    }
    forall i | 0 <= i < |s.notes| ensures NoteLasts(s.notes[i], u) {
      assert NoteLasts(s.notes[i], t);
      NoteLastsTransitive(s.notes[i], t, u);
    }
  }

  lemma BindingsLastTransitive(bs: seq<Binding>, cs: seq<Binding>, ds: seq<Binding>)
    requires BindingsLast(bs, cs) && BindingsLast(cs, ds)
    ensures BindingsLast(bs, ds)
  {
    forall i | 0 <= i < |bs| ensures LaterBinding(bs[i], ds[i]) { assert LaterBinding(bs[i], cs[i]) && LaterBinding(cs[i], ds[i]); }
  }

  lemma WorkLastsTransitive(w: Work, t: Control, u: Control)
    requires WorkLasts(w, t) && forall i :: 0 <= i < |t.works| ==> WorkLasts(t.works[i], u)
    ensures WorkLasts(w, u)
  {
    assert WorkLasts(t.works[WorkIndex(t.works, w.id)], u);
  }

  lemma CaseLastsTransitive(c: Case, t: Control, u: Control)
    requires CaseLasts(c, t) && forall i :: 0 <= i < |t.cases| ==> CaseLasts(t.cases[i], u)
    ensures CaseLasts(c, u)
  {
    assert CaseLasts(t.cases[CaseIndex(t.cases, c.id)], u);
  }

  lemma NoteLastsTransitive(n: Note, t: Control, u: Control)
    requires NoteLasts(n, t) && forall i :: 0 <= i < |t.notes| ==> NoteLasts(t.notes[i], u)
    ensures NoteLasts(n, u)
  {
    assert NoteLasts(t.notes[NoteIndex(t.notes, n.id)], u);
  }

  lemma InvUnique(s: Control)
    requires Inv(s)
    ensures UniqueWorks(s.works) && UniqueCases(s.cases) && UniqueNotes(s.notes) && UniqueBindings(s.bindings)
  {
  }

  /** What an accepted call publishes: sound in the state it met, made by its body, of the shape of the call, and losing nothing. */
  ghost predicate Published(s: Control, op: Op, p: Publication) {
    Inv(s) && Inv(Publish(s, p)) && Later(s, Publish(s, p)) && Sound(s, p) && Opened(s, op, p) && Shape(op, p)
  }

  lemma StepPublishes(s: Control, op: Op, p: Publication)
    requires Inv(s) && Admissible(s, op) && Attempt(s, op) == Ledger.Candidate(p)
    ensures Published(s, op, p)
  {
    hide Inv, Later, Admissible, Attempt, Publish, Sound, Opened, Shape, UniqueWorks, UniqueCases, UniqueNotes, UniqueBindings, T.Allowed;
    AttemptSound(s, op, p);
    Shapes.Shapes(s, op, p);
    StepKeeps(s, op);
    InvUnique(s);
    InvUnique(Publish(s, p));
    AllowedIsLater(s, Publish(s, p));
  }

  /** Any state of a run is a later version of any earlier one. */
  lemma {:induction false} NothingIsLost(t: Trace, u: Trace)
    requires Run(u) && Continues(t, u)
    ensures Run(t) && Later(Now(t), Now(u))
  {
    hide Inv, Later, Admissible, Attempt, Publish, Sound, Opened, Shape, UniqueWorks, UniqueCases, UniqueNotes, UniqueBindings;
    if t == u {
      Reachable(t);
      InvUnique(Now(t));
      LaterReflexive(Now(t));
    } else {
      NothingIsLost(t, u.before);
      Reachable(u.before);
      match Attempt(Now(u.before), u.op)
      case Candidate(p) =>
        StepPublishes(Now(u.before), u.op, p);
        LaterTransitive(Now(t), Now(u.before), Now(u));
      case _ =>
    }
  }
}
