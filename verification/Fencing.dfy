/** Fencing generations over whole runs: a target's generation names one case under one lead for ever,
    and an operation that carries an older generation never changes the case. */
module Fencing {
  import opened ControlTypes
  import opened Records
  import opened Publications
  import opened Invariant
  import opened Preservation
  import opened Steps
  import opened History
  import opened Runs
  import opened Retained
  import Shapes
  import SubmissionSoundness
  import Ledger

  /** The case had this very generation already in the earlier state. */
  predicate HadGeneration(s: Control, d: Case) {
    exists i :: 0 <= i < |s.cases| && s.cases[i].id == d.id && s.cases[i].target == d.target && s.cases[i].generation == d.generation
  }

  /** The generation exceeds every one the target had in the earlier state. */
  predicate Outranks(s: Control, d: Case) {
    forall i :: 0 <= i < |s.cases| && s.cases[i].target == d.target ==> s.cases[i].generation < d.generation
  }

  /** Generations that appear between two states are new for their target. */
  predicate Fences(s: Control, t: Control) {
    forall k :: 0 <= k < |t.cases| ==> HadGeneration(s, t.cases[k]) || Outranks(s, t.cases[k])
  }

  lemma SameCasesFence(s: Control, t: Control)
    requires s.cases == t.cases
    ensures Fences(s, t)
  {
  }

  /** A fitting change raises a generation only above everything its target has had. */
  lemma FittingFences(s: Control, ch: Change, t: Control)
    requires CasesOk(s.cases, s.revision) && Fits(s, ch) && t.cases == CasesAfter(s.cases, ch)
    ensures Fences(s, t)
  {
    hide CaseOk, FitsWork, FitsNote, UniqueCases;
    forall k | 0 <= k < |t.cases| ensures HadGeneration(s, t.cases[k]) || Outranks(s, t.cases[k]) {
      if ch.AddCase? && k == |s.cases| {
        assert Outranks(s, t.cases[k]);
      } else if ch.SetCase? && k == ch.index && ch.item.generation != s.cases[k].generation {
        assert Outranks(s, t.cases[k]);
      } else {
        assert s.cases[k].generation == t.cases[k].generation;
      }
    }
  }

  // ---------- whole runs ----------

  /** A generation that is new against the middle state is new against the first one. */
  lemma OutranksBefore(s: Control, t: Control, d: Case)
    requires forall i :: 0 <= i < |s.cases| ==> CaseLasts(s.cases[i], t)
    requires Outranks(t, d)
    ensures Outranks(s, d)
  {
    forall i | 0 <= i < |s.cases| && s.cases[i].target == d.target ensures s.cases[i].generation < d.generation {
      assert CaseLasts(s.cases[i], t);
    }
  }

  lemma HadBefore(s: Control, t: Control, d: Case)
    requires Fences(s, t) && HadGeneration(t, d)
    ensures HadGeneration(s, d) || Outranks(s, d)
  {
    var k :| 0 <= k < |t.cases| && t.cases[k].id == d.id && t.cases[k].target == d.target && t.cases[k].generation == d.generation;
    assert HadGeneration(s, t.cases[k]) || Outranks(s, t.cases[k]);
  }

  lemma FencesTransitive(s: Control, t: Control, u: Control)
    requires Fences(s, t) && Fences(t, u) && Later(s, t)
    ensures Fences(s, u)
  {
    hide HadGeneration, Outranks, CaseLasts, WorkLasts, NoteLasts;
    forall k | 0 <= k < |u.cases| ensures HadGeneration(s, u.cases[k]) || Outranks(s, u.cases[k]) {
      if HadGeneration(t, u.cases[k]) { HadBefore(s, t, u.cases[k]); }
      else { OutranksBefore(s, t, u.cases[k]); }
    }
  }

  lemma {:induction false} RunFences(t: Trace, u: Trace)
    requires Run(u) && Continues(t, u)
    ensures Fences(Now(t), Now(u))
  {
    hide UniqueWorks, WorksOk, NotesOk, FieldsFit, LedgersFit, LedgersRefer, Enrolled, HistoryExact, KeysOnce, NoWorkerKeys, KeyUsed, EntryKey,
         SubmissionSoundness.LifecycleOf, SubmissionSoundness.SubmissionSound, Fits, Fences, CasesOk, CasesKnown, NotesKnown, IdsDisjoint,
         Later, Admissible, Attempt, Shapes.Opened, Shapes.Shape;
    if t == u {
      SameCasesFence(Now(t), Now(t));
    } else {
      var s := Now(u.before);
      RunFences(t, u.before);
      NothingIsLost(t, u.before);
      Reachable(u.before);
      match Attempt(s, u.op) {
        case Candidate(p) =>
          StepPublishes(s, u.op, p);
          match ChangeOf(p) {
            case Some(ch) => FittingFences(s, ch, Now(u));
            case None => SameCasesFence(s, Now(u));
          }
        case _ => SameCasesFence(s, s);
      }
      FencesTransitive(Now(t), s, Now(u));
    }
  }

  lemma OneHolder(s: Control, t: Control, c: Case, d: Case)
    requires CasesOk(s.cases, s.revision) && CasesOk(t.cases, t.revision) && Fences(s, t) && c in s.cases && d in t.cases
    requires CaseLasts(c, t) && c.target == d.target && c.generation == d.generation
    ensures c.id == d.id && c.lead == d.lead
  {
    hide CaseOk;
    var b :| 0 <= b < |t.cases| && t.cases[b] == d;
    assert HadGeneration(s, t.cases[b]);
    assert CaseIndex(t.cases, d.id) == b;
  }

  lemma InvCases(s: Control)
    requires Inv(s)
    ensures CasesOk(s.cases, s.revision)
  {
    hide WorksOk, CasesOk, NotesOk, FieldsFit, LedgersFit, LedgersRefer, Enrolled, HistoryExact, KeysOnce, NoWorkerKeys,
         SubmissionSoundness.LifecycleOf, CasesKnown, NotesKnown, IdsDisjoint;
  }

  lemma LastingCase(s: Control, c: Case, t: Control)
    requires Later(s, t) && c in s.cases
    ensures CaseLasts(c, t)
  {
    hide WorkLasts, CaseLasts, NoteLasts, BindingsLast;
  }

  /** Over a whole run a target's generation belongs to one case under one lead, across claim, transfer,
      release, a new claim and operator adoption. */
  lemma GenerationNamesOneLead(t: Trace, u: Trace, c: Case, d: Case)
    requires Run(u) && Continues(t, u) && c in Now(t).cases && d in Now(u).cases
    requires c.target == d.target && c.generation == d.generation
    ensures c.id == d.id && c.lead == d.lead
  {
    hide *;
    NothingIsLost(t, u);
    Reachable(t);
    Reachable(u);
    RunFences(t, u);
    InvCases(Now(t));
    InvCases(Now(u));
    LastingCase(Now(t), c, Now(u));
    OneHolder(Now(t), Now(u), c, d);
  }

  lemma GreatestHere(s: Control, c: Case, d: Case)
    requires CasesOk(s.cases, s.revision) && c in s.cases && d in s.cases && c != d && c.state == Active && c.target == d.target
    ensures d.state == Closed && d.generation < c.generation
  {
    hide CaseOk, UniqueCases;
    assert Fenced(s.cases);
  }

  /** In every reachable state an active case has its target's greatest generation and is its only active case. */
  lemma ActiveIsGreatest(t: Trace, c: Case, d: Case)
    requires Run(t) && c in Now(t).cases && d in Now(t).cases && c != d && c.state == Active && c.target == d.target
    ensures d.state == Closed && d.generation < c.generation
  {
    hide *;
    Reachable(t);
    InvCases(Now(t));
    GreatestHere(Now(t), c, d);
  }

  // ---------- stale generations ----------

  /** The case and generation an operation claims to act under. */
  function Claims(op: Op): Option<(Id, nat)> {
    match op
    case CommandOp(_, command, _, _) =>
      if Ledger.IsCaseChange(command) then Some((command.caseId, command.generation)) else None
    case ExtendOp(_, _, x) => Some((x.caseId, x.generation))
    case ObserveOp(_, _, o, _, _) => Some((o.caseId, o.generation))
    case OutcomeOp(actor, _, _, _, _, generation, _, _, _, _) => Some((actor.caseId, generation))
    case RecoverOp(_, r) => if Ledger.TouchesWork(r.action) then None else Some((r.itemId, Ledger.ActionGeneration(r.action)))
    case _ => None
  }

  /** The operation names a case under another generation than its current one. */
  predicate Outdated(s: Control, op: Op) {
    Claims(op).Some? && HasCase(s.cases, Claims(op).value.0) &&
    s.cases[CaseIndex(s.cases, Claims(op).value.0)].generation != Claims(op).value.1
  }

  lemma BodyOutdated(s: Control, owner: ParentId, command: Command, elected: bool, newId: Id)
    requires Outdated(s, CommandOp(owner, command, elected, newId))
    ensures Ledger.CommandBody(s, owner, command, elected, newId).Err?
  {
    hide Ledger.CommandAdmitted, Ledger.CommandSchema, Ledger.ChangedCase;
  }

  /** An operation under any generation but the case's current one publishes nothing. */
  lemma OtherGenerationRefused(s: Control, op: Op)
    requires Outdated(s, op)
    ensures Step(s, op) == s
  {
    hide Ledger.CasePendingUnsettled, Ledger.OrdinaryKey, Ledger.Decodable, Ledger.CommandBody, Ledger.ExtendedCase, VisibleWork, Ledger.WorkerStep,
         Ledger.AdmitApplication, Ledger.SubmitStep, Ledger.Blank;
    if op.CommandOp? { BodyOutdated(s, op.owner, op.command, op.elected, op.newId); }
  }

  lemma PassedIsOutdated(s: Control, t: Control, c: Case, op: Op, generation: nat)
    requires c in s.cases && Later(s, t) && Claims(op) == Some((c.id, generation)) && generation < c.generation
    ensures Outdated(t, op)
  {
    hide Claims, WorkLasts, NoteLasts;
    assert CaseLasts(c, t);
  }

  /** Once a case has moved past a generation, no operation carrying it ever changes the ledger again. */
  lemma FencedForever(t: Trace, u: Trace, c: Case, op: Op, generation: nat)
    requires Run(u) && Continues(t, u) && c in Now(t).cases
    requires Claims(op) == Some((c.id, generation)) && generation < c.generation
    ensures Step(Now(u), op) == Now(u)
  {
    hide *;
    NothingIsLost(t, u);
    PassedIsOutdated(Now(t), Now(u), c, op, generation);
    OtherGenerationRefused(Now(u), op);
  }
}
