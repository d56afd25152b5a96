/** Where a binding comes from: over a whole run each carries the decision taken on the record it was bound to, and only
    its owner's own call, naming its link, settled, released or ended it. */
module BindingRuns {
  import opened ControlTypes
  import opened Records
  import opened Publications
  import opened Submissions
  import opened Ledger
  import opened Steps
  import opened Runs
  import opened Retained
  import opened Shapes

  /** The submission that made the binding, with the decision of the record it was taken on. */
  predicate Binds(s: Control, op: Op, b: Binding) {
    match op
    case SubmitOp(owner, _, BindInput(taskId, requestKey, sourceView, inputOid, intentHash, areas, announcement, expected, payload, assignment)) =>
      owner == b.owner && taskId == b.taskId && requestKey == b.requestKey && sourceView == b.sourceView && inputOid == b.inputOid &&
      areas == b.areas && announcement == b.announcement && b.link.taskId == taskId && b.link.requestKey == requestKey &&
      b.link.owner == owner && b.link.intentHash == intentHash &&
      SubmissionDecision(s, owner, op.input) == Ok(b.link.decision)
    case _ => false
  }

  /** The owner's call that left the binding in its state. */
  predicate Disposes(op: Op, b: Binding) {
    match op
    case SubmitOp(owner, _, SettleInput(taskId, requestKey, link)) =>
      b.state == Settled && owner == b.owner && taskId == b.taskId && requestKey == b.requestKey && link == b.link
    case SubmitOp(owner, _, ReleaseInput(taskId, requestKey, link)) =>
      b.state == Released && owner == b.owner && taskId == b.taskId && requestKey == b.requestKey && link == b.link
    case SubmitOp(owner, _, TerminalInput(taskId, requestKey, link, terminal)) =>
      b.state == Ended && owner == b.owner && taskId == b.taskId && requestKey == b.requestKey && link == b.link && b.terminal == Some(terminal)
    case _ => false
  }

  predicate SameBinding(was: Binding, b: Binding) {
    b.(state := was.state, terminal := was.terminal) == was
  }

  // ---------- one step ----------

  /** The call made the binding, or moved it on from an earlier one. */
  predicate Made(s: Control, op: Op, b: Binding) { Binds(s, op, b) && b.state == Bound }
  predicate MovedOn(s: Control, op: Op, b: Binding) { Disposes(op, b) && exists was :: was in s.bindings && SameBinding(was, b) }

  /** What an accepted submission does to the bindings. */
  predicate BindingsMove(s: Control, op: Op, bs: seq<Binding>) {
    forall b :: b in bs ==> b in s.bindings || Made(s, op, b) || MovedOn(s, op, b)
  }

  lemma DispositionMoves(s: Control, owner: ParentId, key: Key, input: SubmissionInput, xs: seq<Announcement>, bs: seq<Binding>, schema: nat, e: Event)
    requires Submit(s, owner, key, input) == Ok(Submitting(xs, bs, schema, e)) && (input.SettleInput? || input.ReleaseInput? || input.TerminalInput?)
    ensures BindingsMove(s, SubmitOp(owner, key, input), bs)
  {
    hide Bind, Announce, WithdrawAnnouncement, HoldsTask, AnnouncementIndex, SubmissionDecision, SubmissionSchema;
    var i := BindingIndex(s.bindings, input.taskId);
    assert bs == s.bindings[i := bs[i]] && SameBinding(s.bindings[i], bs[i]) && Disposes(SubmitOp(owner, key, input), bs[i]);
    assert MovedOn(s, SubmitOp(owner, key, input), bs[i]);
    hide Submit, Disposes, SameBinding, MovedOn;
    forall b | b in bs && b != bs[i] ensures b in s.bindings {
      var k :| 0 <= k < |bs| && bs[k] == b;
      assert s.bindings[k] == b;
    }
  }

  lemma BindMoves(s: Control, owner: ParentId, key: Key, input: SubmissionInput, xs: seq<Announcement>, bs: seq<Binding>, schema: nat, e: Event)
    requires Submit(s, owner, key, input) == Ok(Submitting(xs, bs, schema, e)) && input.BindInput?
    ensures BindingsMove(s, SubmitOp(owner, key, input), bs)
  {
    hide SubmissionDecision, RequestKeyHeld, HasBinding, Dispose, Terminate, Announce, WithdrawAnnouncement;
    var b := bs[|s.bindings|];
    assert bs == s.bindings + [b] && Made(s, SubmitOp(owner, key, input), b);
    hide Submit, Made;
  }

  lemma AnnouncesOnly(s: Control, owner: ParentId, key: Key, input: SubmissionInput, xs: seq<Announcement>, bs: seq<Binding>, schema: nat, e: Event)
    requires Submit(s, owner, key, input) == Ok(Submitting(xs, bs, schema, e)) && (input.AnnounceInput? || input.WithdrawInput?)
    ensures bs == s.bindings
  {
  }

  lemma SubmissionMoves(s: Control, owner: ParentId, key: Key, input: SubmissionInput, xs: seq<Announcement>, bs: seq<Binding>, schema: nat, e: Event)
    requires Submit(s, owner, key, input) == Ok(Submitting(xs, bs, schema, e))
    ensures BindingsMove(s, SubmitOp(owner, key, input), bs)
  {
    hide Submit, Made, MovedOn;
    if input.BindInput? { BindMoves(s, owner, key, input, xs, bs, schema, e); }
    else if input.AnnounceInput? || input.WithdrawInput? { AnnouncesOnly(s, owner, key, input, xs, bs, schema, e); }
    else { DispositionMoves(s, owner, key, input, xs, bs, schema, e); }
  }

  /** Every binding after the call was there, or was made or moved by it. */
  lemma BindingsMoved(s: Control, op: Op, p: Publication)
    requires Opened(s, op, p) && Shape(op, p)
    ensures BindingsMove(s, op, Publish(s, p).bindings)
  {
    hide CommandBody, ExtendBody, ObserveBody, WorkerBody, AdmitApplication, PublishOutcome, Submit, RecoverStep,
         CasePendingUnsettled, Decodable, Made, MovedOn, PostsRecord, ApplicationRecord, ActionOf, CommandChange;
    match p
    case Submitting(xs, bs, schema, e) => SubmissionMoves(s, op.owner, op.key, op.input, xs, bs, schema, e);
    case _ =>
  }

  // ---------- whole runs ----------

  /** An accepted submission of the run bound it. */
  predicate BoundIn(calls: seq<Moment>, b: Binding) {
    exists c :: c in calls && Accepts(c.state, c.op) && Binds(c.state, c.op, b)
  }

  /** An accepted call of its owner left it in its state. */
  predicate DisposedIn(calls: seq<Moment>, b: Binding) {
    exists c :: c in calls && Accepts(c.state, c.op) && Disposes(c.op, b)
  }

  /** Every binding of a reachable state was made by its owner's submission, and its link still carries the decision that
      submission took on the record of its time. */
  lemma {:induction false} BoundAsDecided(t: Trace, b: Binding)
    requires Run(t) && b in Now(t).bindings
    ensures BoundIn(Moments(t), b)
  {
    hide Inv, Admissible, Attempt, Publish, Later, Sound, Opened, Shape, SubmissionDecision, Disposes, Moments;
    match t
    case Start(_, _, _) =>
    case Then(before, op) =>
      LastMoment(before, op);
      if b in Now(before).bindings {
        BoundAsDecided(before, b);
      } else {
        var s, p := Now(before), Attempt(Now(before), op).publication;
        Reachable(before);
        StepPublishes(s, op, p);
        BindingsMoved(s, op, p);
        if MovedOn(s, op, b) {
          var was :| was in s.bindings && SameBinding(was, b);
          BoundAsDecided(before, was);
          var c :| c in Moments(before) && Accepts(c.state, c.op) && Binds(c.state, c.op, was);
          assert Binds(c.state, c.op, b);
        }
      }
  }

  /** A binding of a reachable state that is no longer bound was settled, released or ended by a call of its owner that
      named its request and the very link it was bound with; its terminal evidence is what that call gave. */
  lemma {:induction false} DisposedByItsOwner(t: Trace, b: Binding)
    requires Run(t) && b in Now(t).bindings && b.state != Bound
    ensures DisposedIn(Moments(t), b)
  {
    hide Inv, Admissible, Attempt, Publish, Later, Sound, Opened, Shape, Binds, Disposes, SameBinding, Moments;
    match t
    case Start(_, _, _) =>
    case Then(before, op) =>
      LastMoment(before, op);
      if b in Now(before).bindings {
        DisposedByItsOwner(before, b);
      } else {
        var s, p := Now(before), Attempt(Now(before), op).publication;
        Reachable(before);
        StepPublishes(s, op, p);
        BindingsMoved(s, op, p);
      }
  }
}
