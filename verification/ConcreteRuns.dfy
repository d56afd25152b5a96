/** Building a run one accepted operation at a time. */
module ConcreteRuns {
  import opened ControlTypes
  import opened Records
  import opened Publications
  import opened Invariant
  import opened History
  import opened Ledger
  import opened Steps
  import opened Runs

  const LIMITS: Limits := Limits(8, 8, 8, 64, 1024)

  /** The call is admissible, is accepted and publishes this. */
  predicate Publishes(s: Control, op: Op, p: Publication) {
    Admissible(s, op) && Attempt(s, op) == Candidate(p)
  }

  lemma Starts() returns (t: Trace)
    ensures t == Start("repository", "epoch", LIMITS) && Run(t) && Now(t) == EmptyControl("repository", "epoch", LIMITS)
  {
    t := Start("repository", "epoch", LIMITS);
  }

  /** The run goes on with the call. */
  lemma OneMore(t: Trace, op: Op, p: Publication)
    requires Run(t) && Publishes(Now(t), op, p)
    ensures Run(Then(t, op)) && Accepts(Now(t), op) && Now(Then(t, op)) == Publish(Now(t), p)
  {
    hide Admissible, Attempt, Publish;
  }

  // ---------- the keys in use ----------

  /** Every entry is under one of these keys. */
  predicate KeysIn(s: Control, used: set<Key>) {
    s.recoveries == [] && (forall r :: r in s.receipts ==> r.key in used) && forall e :: e in s.events ==> e.key in used
  }

  predicate Unkeyed(s: Control, owner: ParentId, key: Key) {
    !ReceiptKeyUsed(s.receipts, owner, key) && !RecoveryKeyUsed(s.recoveries, owner, key) && !EventKeyUsed(s.events, owner, key)
  }

  lemma NotInUse(s: Control, used: set<Key>, owner: ParentId, key: Key)
    requires KeysIn(s, used) && key !in used
    ensures Unkeyed(s, owner, key)
  {
  }

  lemma KeysAfter(s: Control, used: set<Key>, p: Publication)
    requires KeysIn(s, used) && !p.Recovering?
    ensures KeysIn(Publish(s, p), used + {EntryKey(p).key})
  {
  }

  // ---------- each entry point ----------

  /** A command about works or cases that applies. */
  predicate Applies(s: Control, owner: ParentId, command: Command, elected: bool, newId: Id, a: Applied) {
    Decodable(command) && !command.key.WorkerKey? && !command.ReleaseCase? && !command.PostNote? && !command.AckNote? && !command.WithdrawNote? &&
    FreshIdentity(s, CommandOp(owner, command, elected, newId)) && Apply(s, owner, command, elected, newId) == Ok(a)
  }

  function CommandPublication(s: Control, owner: ParentId, command: Command, elected: bool, a: Applied): Publication {
    Acknowledge(s, a.change, CommandSchema(s, command, elected), owner, command.key, CommandRequest(owner, command), ActionOf(command), a.entity, a.itemId)
  }

  lemma CommandPublishes(s: Control, owner: ParentId, command: Command, elected: bool, newId: Id, a: Applied)
    requires Applies(s, owner, command, elected, newId, a) && Unkeyed(s, owner, command.key)
    ensures Publishes(s, CommandOp(owner, command, elected, newId), CommandPublication(s, owner, command, elected, a))
  {
    hide Decodable, Apply, CommandSchema, ReceiptKeyUsed, RecoveryKeyUsed, EventKeyUsed, FreshIdentity, ExtendCase, ObserveDelivery, WorkerStep,
         AdmitApplication, PublishOutcome, SubmitStep, RecoverStep, ActionOf, CasePendingUnsettled;
  }

  /** A note operation of a worker that applies. */
  predicate Performs(s: Control, actor: WorkerActor, k: string, operation: WorkerOperation, bytes: nat, newId: Id, p: Publication) {
    WorkerBody(s, actor, MainKey(actor, k), operation, bytes, newId) == Ok(p) && WorkerCase(s, actor).Ok? &&
    FreshIdentity(s, WorkerOp(actor, k, operation, bytes, newId))
  }

  lemma WorkerPublishes(s: Control, actor: WorkerActor, k: string, operation: WorkerOperation, bytes: nat, newId: Id, p: Publication)
    requires Performs(s, actor, k, operation, bytes, newId, p) && !ReceiptKeyUsed(s.receipts, actor.owner, MainKey(actor, k))
    ensures Publishes(s, WorkerOp(actor, k, operation, bytes, newId), p)
  {
    hide WorkerBody, WorkerCase, ReceiptKeyUsed, FreshIdentity, ExecuteCommand, ExtendCase, ObserveDelivery, AdmitApplication, PublishOutcome,
         SubmitStep, RecoverStep;
  }

  /** The admission of an application, as an operation. */
  lemma AdmitAccepted(s: Control, actor: WorkerActor, k: string, noteId: Id, digest: Digest, bytes: nat, newId: Id, p: Publication)
    requires AdmitApplication(s, actor, k, noteId, digest, bytes, newId) == Admits(p)
    ensures Attempt(s, AdmitOp(actor, k, noteId, digest, bytes, newId)) == Candidate(p)
  {
    hide AdmitApplication, ExecuteCommand, ExtendCase, ObserveDelivery, WorkerStep, PublishOutcome, SubmitStep, RecoverStep;
  }

  lemma ExtendPublishes(s: Control, owner: ParentId, key: Key, x: Extension, p: Publication)
    requires ExtendBody(s, owner, key, x) == Ok(p) && Unkeyed(s, owner, key)
    ensures Publishes(s, ExtendOp(owner, key, x), p)
  {
    hide ExtendBody, ReceiptKeyUsed, RecoveryKeyUsed, EventKeyUsed, ExecuteCommand, ObserveDelivery, WorkerStep, AdmitApplication, PublishOutcome,
         SubmitStep, RecoverStep;
  }

  function RecoveryPublication(s: Control, operator: ParentId, r: Recovery, change: Change): Publication {
    Recovering(change, RecoverySchema(s.schema), RecoveryReceipt(operator, RecoveryRequest(operator, r), s.revision + 1, r))
  }

  lemma RecoverPublishes(s: Control, operator: ParentId, r: Recovery, change: Change)
    requires ApplyRecovery(s, r) == Ok(change) && !Blank(r.statement) && !r.key.WorkerKey? && r.epoch == s.epoch && Unkeyed(s, operator, r.key)
    ensures Publishes(s, RecoverOp(operator, r), RecoveryPublication(s, operator, r, change))
  {
    hide ApplyRecovery, Blank, ReceiptKeyUsed, RecoveryKeyUsed, EventKeyUsed, ExecuteCommand, ExtendCase, ObserveDelivery, WorkerStep,
         AdmitApplication, PublishOutcome, SubmitStep;
  }

  lemma SubmitPublishes(s: Control, owner: ParentId, key: Key, input: SubmissionInput, p: Publication)
    requires SubmitStep(s, owner, key, input) == Candidate(p)
    ensures Publishes(s, SubmitOp(owner, key, input), p)
  {
    hide SubmitStep, ExecuteCommand, ExtendCase, ObserveDelivery, WorkerStep, AdmitApplication, PublishOutcome, RecoverStep;
  }

  // ---------- a key with two entries ----------

  /** After the run the operation, with a new identity, is accepted and its key then names two entries. */
  ghost predicate Collides(t: Trace, op: Op) {
    Run(t) && FreshIdentity(Now(t), op) && Accepts(Now(t), op) && !KeysOnce(Step(Now(t), op))
  }
}
