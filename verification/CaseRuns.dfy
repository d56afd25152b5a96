/** What moves a case over a whole run: a possible effect holds it until its settlement, and every member was shown every input. */
module CaseRuns {
  import opened ControlTypes
  import opened Records
  import opened Publications
  import opened Invariant
  import opened Ledger
  import opened Steps
  import opened Runs
  import opened Retained
  import opened Shapes
  import Effects
  import Submissions

  /** The settlement of the case's effect, by its lead or by the operator. */
  predicate Settles(op: Op, was: Case) {
    match op
    case CommandOp(owner, command, _, _) => command.SettleExternal? && command.caseId == was.id && owner == was.lead
    case RecoverOp(_, r) => r.action.RecoverSettleCase? && r.itemId == was.id
    case _ => false
  }

  /** Only the delivery lists moved. */
  predicate SameUpToDelivery(was: Case, c: Case) {
    c.(pending := was.pending, observed := was.observed) == was
  }

  /** What each entry point makes of the case. */
  predicate CaseMoved(s: Control, op: Op, was: Case, c: Case) {
    c.id == was.id &&
    match op
    case CommandOp(owner, command, elected, _) =>
      IsCaseChange(command) && command.caseId == was.id && owner == was.lead && ChangedCase(s, was, owner, command, elected) == Ok(c)
    case ExtendOp(_, _, x) =>
      x.caseId == was.id && was.effect == NotStarted && c.effect == NotStarted && InputIds(c.inputs) == InputIds(was.inputs) + [x.newWorkId]
    case ObserveOp(_, _, _, _, _) => SameUpToDelivery(was, c)
    case RecoverOp(_, r) => !TouchesWork(r.action) && r.itemId == was.id && RecoveredCase(s, was, r) == Ok(c)
    case _ => false
  }

  predicate MovedAt(s: Control, op: Op, i: nat, c: Case) {
    i < |s.cases| && CaseMoved(s, op, s.cases[i], c)
  }

  // ---------- one step ----------

  lemma CommandMoves(s: Control, owner: ParentId, command: Command, elected: bool, newId: Id, i: nat, c: Case, schema: nat, r: Receipt)
    requires CommandBody(s, owner, command, elected, newId) == Ok(Ordinary(SetCase(i, c), schema, r))
    ensures MovedAt(s, CommandOp(owner, command, elected, newId), i, c)
  {
    hide CommandAdmitted, Register, ChangedWork, PostedNote, ClaimedCase, AnsweredNote, OwnWork, CommandSchema, ChangedCase, ActionOf;
    ChangedKeepsId(s, s.cases[i], owner, command, elected, c);
  }

  lemma ChangedKeepsId(s: Control, was: Case, owner: ParentId, command: Command, elected: bool, c: Case)
    requires IsCaseChange(command) && ChangedCase(s, was, owner, command, elected) == Ok(c)
    ensures c.id == was.id
  {
    hide CanReadCase, InputsVisible;
  }

  lemma ExtendMoves(s: Control, owner: ParentId, key: Key, x: Extension, i: nat, c: Case, schema: nat, r: Receipt)
    requires ExtendBody(s, owner, key, x) == Ok(Ordinary(SetCase(i, c), schema, r))
    ensures MovedAt(s, ExtendOp(owner, key, x), i, c)
  {
    hide ExtendBody;
    Effects.ExtensionAdds(s, owner, key, x, i, c, schema, r);
  }

  lemma ObserveMoves(s: Control, owner: ParentId, key: Key, o: Observation, epoch: Id, revision: nat, i: nat, c: Case, schema: nat, r: Receipt)
    requires ObserveBody(s, owner, key, o) == Ok(Ordinary(SetCase(i, c), schema, r))
    ensures MovedAt(s, ObserveOp(owner, key, o, epoch, revision), i, c)
  {
    hide Without;
  }

  lemma RecoverMoves(s: Control, operator: ParentId, recovery: Recovery, i: nat, c: Case, schema: nat, r: RecoveryReceipt)
    requires RecoverStep(s, operator, recovery) == Candidate(Recovering(SetCase(i, c), schema, r))
    ensures MovedAt(s, RecoverOp(operator, recovery), i, c)
  {
    hide RecoveredCase, RecoveredWork, Blank, RecoveryFor, ReceiptKeyUsed, EventKeyUsed;
    RecoveredKeepsId(s, s.cases[i], recovery, c);
  }

  lemma RecoveredKeepsId(s: Control, was: Case, r: Recovery, c: Case)
    requires !TouchesWork(r.action) && RecoveredCase(s, was, r) == Ok(c)
    ensures c.id == was.id
  {
    hide VisibleWork;
  }

  /** Whatever changes a case, the call moved it. */
  lemma CaseMoves(s: Control, op: Op, p: Publication, i: nat, c: Case)
    requires Opened(s, op, p) && Shape(op, p) && ChangeOf(p) == Some(SetCase(i, c))
    ensures MovedAt(s, op, i, c)
  {
    hide CommandBody, ExtendBody, ObserveBody, WorkerBody, AdmitApplication, PublishOutcome, Submissions.Submit, RecoverStep, CasePendingUnsettled,
         Decodable, CommandChange, ActionOf, PostsRecord, ApplicationRecord, CaseMoved;
    match p
    case Ordinary(_, schema, r) =>
      match op {
        case CommandOp(owner, command, elected, newId) => CommandMoves(s, owner, command, elected, newId, i, c, schema, r);
        case ExtendOp(owner, key, x) => ExtendMoves(s, owner, key, x, i, c, schema, r);
        case ObserveOp(owner, key, o, epoch, revision) => ObserveMoves(s, owner, key, o, epoch, revision, i, c, schema, r);
        case _ =>
      }
    case Recovering(_, schema, r) =>
      match op {
        case RecoverOp(operator, recovery) => RecoverMoves(s, operator, recovery, i, c, schema, r);
        case _ =>
      }
  }

  /** A case nobody has moved yet. */
  predicate Unmoved(c: Case) { c.effect == NotStarted && c.inputs == [] }

  lemma AddedUnmoved(op: Op, p: Publication)
    requires Shape(op, p)
    ensures forall c :: c in NewCases(p) ==> Unmoved(c)
  {
    hide ActionOf, IsWorkChange, IsCaseChange, PostsRecord, ApplicationRecord;
  }

  /** The call moved the case from an earlier one, or to a later one. */
  predicate MovedTo(s: Control, op: Op, c: Case) { exists was :: was in s.cases && CaseMoved(s, op, was, c) }
  predicate MovedOn(s: Control, op: Op, was: Case, t: Control) { exists c :: c in t.cases && CaseMoved(s, op, was, c) }

  lemma SetMoves(s: Control, op: Op, i: nat, m: Case, t: Control, c: Case)
    requires MovedAt(s, op, i, m) && t.cases == CasesAfter(s.cases, SetCase(i, m))
    ensures c in t.cases ==> c in s.cases || MovedTo(s, op, c)
    ensures c in s.cases ==> c in t.cases || MovedOn(s, op, c, t)
  {
    hide CaseMoved;
    assert MovedTo(s, op, m);
    assert t.cases[i] == m && MovedOn(s, op, s.cases[i], t);
    if c in s.cases {
      var k :| 0 <= k < |s.cases| && s.cases[k] == c;
      if k != i { assert t.cases[k] == c; }
    }
  }

  /** Every case after the call stood before it, is unmoved, or was moved by it; every case before it stands or was moved by it. */
  lemma CasesMoved(s: Control, op: Op, p: Publication, c: Case)
    requires Opened(s, op, p) && Shape(op, p)
    ensures c in Publish(s, p).cases ==> c in s.cases || Unmoved(c) || MovedTo(s, op, c)
    ensures c in s.cases ==> c in Publish(s, p).cases || MovedOn(s, op, c, Publish(s, p))
  {
    hide Opened, Shape, MovedAt, MovedTo, MovedOn, Unmoved;
    AddedUnmoved(op, p);
    match ChangeOf(p)
    case Some(SetCase(i, m)) =>
      CaseMoves(s, op, p, i, m);
      SetMoves(s, op, i, m, Publish(s, p), c);
    case Some(AddCase(m)) => assert NewCases(p)[0] == m;
    case _ =>
  }

  // ---------- a possible effect ----------

  predicate EffectPossible(c: Case) { c.effect == Possible }

  /** Whatever else moves a case with a possible effect moves no more than its delivery lists. */
  lemma OnlySettled(s: Control, op: Op, was: Case, c: Case)
    requires EffectPossible(was) && CaseMoved(s, op, was, c)
    ensures SameUpToDelivery(was, c) || (Settles(op, was) && !EffectPossible(c))
  {
    hide VisibleWork, ChangedCase;
    match op
    case CommandOp(owner, command, elected, _) => Effects.EffectBlocks(s, was, owner, command, elected);
    case _ =>
  }

  /** An accepted call among them settled the case's effect. */
  predicate SettledIn(calls: seq<Moment>, c: Case) {
    exists x :: x in calls && Accepts(x.state, x.op) && Settles(x.op, c)
  }

  /** The case stands as it is, but for its delivery lists. */
  predicate StandsIn(s: Control, c: Case) {
    exists d :: d in s.cases && SameUpToDelivery(c, d)
  }

  lemma StandsTransitive(was: Case, c: Case, d: Case, op: Op)
    requires SameUpToDelivery(was, c)
    ensures SameUpToDelivery(c, d) ==> SameUpToDelivery(was, d)
    ensures EffectPossible(c) == EffectPossible(was) && Settles(op, c) == Settles(op, was)
  {
  }

  /** From the moment an effect is possible the case stands as it is, but for its delivery lists, until an accepted
      settlement by its lead or the operator. */
  lemma {:induction false} EffectHolds(t: Trace, u: Trace, c: Case)
    requires Run(u) && Continues(t, u) && c in Now(t).cases && EffectPossible(c) && !SettledIn(MomentsSince(t, u), c)
    ensures StandsIn(Now(u), c)
  {
    hide Inv, Admissible, Attempt, Publish, Later, Sound, Opened, Shape, CaseMoved, SameUpToDelivery, Settles, EffectPossible, MomentsSince, Unmoved;
    if t == u {
      SameStands(c);
    } else {
      var s, op := Now(u.before), u.op;
      LastMomentSince(t, u.before, op);
      EffectHolds(t, u.before, c);
      var d :| d in s.cases && SameUpToDelivery(c, d);
      StandsTransitive(c, d, d, op);
      Reachable(u.before);
      match Attempt(s, op)
      case Candidate(p) =>
        StepPublishes(s, op, p);
        CasesMoved(s, op, p, d);
        if d !in Now(u).cases {
          var e :| e in Now(u).cases && CaseMoved(s, op, d, e);
          OnlySettled(s, op, d, e);
          StandsTransitive(c, d, e, op);
          assert Moment(s, op) in MomentsSince(t, u);
        }
      case _ =>
    }
  }

  lemma SameStands(c: Case)
    ensures SameUpToDelivery(c, c)
  {
  }

  /** The effect is over recorded inputs and a target observation. */
  predicate OverInputs(c: Case) { c.inputs != [] && c.targetOid.Some? }

  lemma BegunOverInputs(s: Control, op: Op, was: Case, c: Case)
    requires CaseMoved(s, op, was, c) && !EffectPossible(was) && EffectPossible(c)
    ensures OverInputs(c)
  {
    hide CanReadCase, InputsVisible, VisibleWork;
  }

  lemma MoveOverInputs(s: Control, op: Op, was: Case, c: Case)
    requires CaseMoved(s, op, was, c) && EffectPossible(c) && (EffectPossible(was) ==> OverInputs(was))
    ensures OverInputs(c)
  {
    hide CaseMoved;
    if EffectPossible(was) { OnlySettled(s, op, was, c); } else { BegunOverInputs(s, op, was, c); }
  }

  /** In every reachable state a possible effect is over recorded inputs and a target observation. */
  lemma {:induction false} EffectHasInputs(t: Trace, c: Case)
    requires Run(t) && c in Now(t).cases && EffectPossible(c)
    ensures OverInputs(c)
  {
    hide Inv, Admissible, Attempt, Publish, Later, Sound, Opened, Shape, CaseMoved, OverInputs;
    match t
    case Start(_, _, _) =>
    case Then(before, op) =>
      if c in Now(before).cases {
        EffectHasInputs(before, c);
      } else {
        var s, p := Now(before), Attempt(Now(before), op).publication;
        Reachable(before);
        StepPublishes(s, op, p);
        CasesMoved(s, op, p, c);
        var was :| was in s.cases && CaseMoved(s, op, was, c);
        if EffectPossible(was) { EffectHasInputs(before, was); }
        MoveOverInputs(s, op, was, c);
      }
  }

  // ---------- what members were shown ----------

  predicate Holds(c: Case, parent: ParentId, workId: Id) {
    parent in c.members && Selects(c, workId)
  }

  /** Before the call or right after it the parent could read the work. */
  predicate Sees(s: Control, t: Control, parent: ParentId, workId: Id) {
    VisibleWork(s, parent, workId) || VisibleWork(t, parent, workId)
  }

  /** The call made the parent a member of the case with the input, and it could read the input then. */
  predicate Shown(x: Moment, caseId: Id, parent: ParentId, workId: Id) {
    Sees(x.state, Step(x.state, x.op), parent, workId) &&
    exists c :: c in Step(x.state, x.op).cases && c.id == caseId && Holds(c, parent, workId)
  }

  lemma CommandShows(s: Control, was: Case, owner: ParentId, command: Command, elected: bool, c: Case, parent: ParentId, workId: Id)
    requires IsCaseChange(command) && ChangedCase(s, was, owner, command, elected) == Ok(c) && Holds(c, parent, workId)
    ensures VisibleWork(s, parent, workId) || Holds(was, parent, workId)
  {
    hide CanReadCase, VisibleWork;
    if command.SelectInputs? {
      Effects.SelectionIsVisible(s, was, owner, command, elected, c);
      var k :| 0 <= k < |c.inputs| && c.inputs[k].workId == workId;
      var m :| 0 <= m < |c.members| && c.members[m] == parent;
      assert VisibleWork(s, c.members[m], c.inputs[k].workId);
    }
  }

  lemma RecoveryShows(s: Control, was: Case, r: Recovery, c: Case, parent: ParentId, workId: Id)
    requires !TouchesWork(r.action) && RecoveredCase(s, was, r) == Ok(c) && Holds(c, parent, workId)
    ensures VisibleWork(s, parent, workId) || Holds(was, parent, workId)
  {
    hide VisibleWork;
    var k :| 0 <= k < |c.inputs| && c.inputs[k].workId == workId;
    assert c.inputs == was.inputs;
  }

  lemma ExtensionShows(s: Control, c: Case, t: Control, parent: ParentId, workId: Id)
    requires InputsVisible(t, c.members, c.inputs) && Holds(c, parent, workId)
    ensures VisibleWork(t, parent, workId)
  {
    hide VisibleWork;
    var k :| 0 <= k < |c.inputs| && c.inputs[k].workId == workId;
    var m :| 0 <= m < |c.members| && c.members[m] == parent;
  }

  lemma DeliveryShowsNothing(was: Case, c: Case, parent: ParentId, workId: Id)
    requires SameUpToDelivery(was, c) && Holds(c, parent, workId)
    ensures Holds(was, parent, workId)
  {
    assert was.inputs == c.inputs && was.members == c.members;
  }

  lemma NothingHeld(c: Case, parent: ParentId, workId: Id)
    requires Unmoved(c)
    ensures !Holds(c, parent, workId)
  {
  }

  /** What moved a case showed its members whatever they did not hold before; an extension disclosed everything. */
  lemma MoveShows(s: Control, op: Op, was: Case, c: Case, t: Control, parent: ParentId, workId: Id)
    requires CaseMoved(s, op, was, c) && (op.ExtendOp? ==> InputsVisible(t, c.members, c.inputs)) && Holds(c, parent, workId)
    ensures Sees(s, t, parent, workId) || Holds(was, parent, workId)
  {
    hide VisibleWork, Holds, ChangedCase, RecoveredCase, InputsVisible, SameUpToDelivery;
    match op
    case CommandOp(owner, command, elected, _) => CommandShows(s, was, owner, command, elected, c, parent, workId);
    case ExtendOp(_, _, _) => ExtensionShows(s, c, t, parent, workId);
    case ObserveOp(_, _, _, _, _) => DeliveryShowsNothing(was, c, parent, workId);
    case RecoverOp(_, r) => RecoveryShows(s, was, r, c, parent, workId);
  }

  /** An extension leaves every moved case disclosed. */
  lemma ExtensionDisclosed(s: Control, owner: ParentId, key: Key, x: Extension, p: Publication, c: Case)
    requires ExtendBody(s, owner, key, x) == Ok(p) && Shape(ExtendOp(owner, key, x), p) && UniqueCases(s.cases) && c in Publish(s, p).cases
    ensures c in s.cases || InputsVisible(Publish(s, p), c.members, c.inputs)
  {
    hide ExtendBody, InputsVisible, UniqueCases, CommandShape, PostsRecord, ApplicationRecord;
    match p
    case Ordinary(SetCase(i, m), schema, r) => Effects.ExtensionDiscloses(s, owner, key, x, i, m, schema, r);
  }

  lemma MovedKeepsId(s: Control, op: Op, was: Case, c: Case)
    requires CaseMoved(s, op, was, c)
    ensures c.id == was.id
  {
    hide ChangedCase, RecoveredCase;
  }

  /** Whoever is a member of a case in a reachable state could read each of its inputs when it came to hold it: at the
      selection, the extension or the adoption that gave it the one or the other. */
  lemma {:induction false} MembersWereShown(t: Trace, c: Case, parent: ParentId, workId: Id)
    requires Run(t) && c in Now(t).cases && Holds(c, parent, workId)
    ensures exists x :: x in Moments(t) && Shown(x, c.id, parent, workId)
  {
    hide Inv, Admissible, Attempt, Publish, Later, Sound, Shape, CaseMoved, Unmoved, Holds, Sees, InputsVisible, Moments, UniqueCases, Decodable,
         CommandBody, ExtendBody, ObserveBody, WorkerBody, AdmitApplication, PublishOutcome, Submissions.Submit, RecoverStep, CasePendingUnsettled;
    match t
    case Start(_, _, _) =>
    case Then(before, op) =>
      LastMoment(before, op);
      if c in Now(before).cases {
        MembersWereShown(before, c, parent, workId);
      } else {
        var s, p := Now(before), Attempt(Now(before), op).publication;
        Reachable(before);
        StepPublishes(s, op, p);
        CasesMoved(s, op, p, c);
        if Unmoved(c) { NothingHeld(c, parent, workId); }
        var was :| was in s.cases && CaseMoved(s, op, was, c);
        if op.ExtendOp? {
          InvUnique(s);
          ExtensionDisclosed(s, op.owner, op.key, op.extension, p, c);
        }
        MoveShows(s, op, was, c, Now(t), parent, workId);
        MovedKeepsId(s, op, was, c);
        if Sees(s, Now(t), parent, workId) {
          assert Shown(Moment(s, op), c.id, parent, workId);
        } else {
          MembersWereShown(before, was, parent, workId);
        }
      }
  }
}
