/** Every interleaving of requests, claims, answers, withdrawals, turns, adoption, cancellation and restarts. */
module InputRuns {
  import opened InputProtocol

  datatype Event =
    | RegisterEvent(id: Id)
    | RequestEvent(id: Id, nativeId: string)
    | ClaimEvent(id: Id, client: Id, generation: nat, claimId: Id)
    | DismissEvent(id: Id, client: Id, claimId: Id)
    | AnswerEvent(id: Id, client: Id, generation: nat, claimId: Id, key: Key, answer: string, offered: bool)
    | DeliverEvent(id: Id)
    | WithdrawEvent(nativeId: string)
    | SettleEvent(turn: string)
    | EndEvent(id: Id, aborted: bool)
    | CancelEvent
    | AdoptEvent
    | ReleaseEvent(client: Id)
    | TurnEvent(turn: string)
    | CorrelateEvent(provisional: string, turn: string, fits: bool)
    | SweepEvent(closes: bool)
    | FinishEvent(reconciled: bool)
    | RestartEvent

  function After(b: Broker, e: Event): Broker {
    match e
    case RegisterEvent(id) => Register(b, id)
    case RequestEvent(id, nativeId) => Request(b, id, nativeId).0
    case ClaimEvent(id, client, generation, claimId) => ClaimInput(b, id, client, generation, claimId).0
    case DismissEvent(id, client, claimId) => Dismiss(b, id, client, claimId)
    case AnswerEvent(id, client, generation, claimId, key, answer, offered) => Answer(b, id, client, generation, claimId, key, answer, offered).0
    case DeliverEvent(id) => Deliver(b, id)
    case WithdrawEvent(nativeId) => Withdraw(b, nativeId)
    case SettleEvent(turn) => SettleTurn(b, turn)
    case EndEvent(id, aborted) => EndRequest(b, id, aborted)
    case CancelEvent => Cancel(b)
    case AdoptEvent => Adopt(b)
    case ReleaseEvent(client) => ReleaseClient(b, client)
    case TurnEvent(turn) => NextTurn(b, turn)
    case CorrelateEvent(provisional, turn, fits) => Correlate(b, provisional, turn, fits)
    case SweepEvent(closes) => Sweep(b, closes)
    case FinishEvent(reconciled) => Finish(b, reconciled)
    case RestartEvent => Restart(b)
  }

  /** A request's identity is new. */
  predicate Admissible(b: Broker, e: Event) {
    e.RequestEvent? ==> InputIndex(b.control.inputs, e.id) == |b.control.inputs|
  }

  // ---------- one input only moves forward ----------

  predicate Forward(a: InputState, b: InputState) {
    a == b || (a == Pending && (b == AnswerIntent || b == Withdrawn)) ||
    (a == AnswerIntent && (b == Settled || b == DeliveryUnknown || b == Withdrawn)) || (a == DeliveryUnknown && b == Withdrawn)
  }

  /** The request stays what it was; its answer and key are written once, with the intent, and its turn only moves while
      it is open. */
  predicate Advances(x: Input, y: Input) {
    y == x.(state := y.state, claim := y.claim, answer := y.answer, key := y.key, turn := y.turn) && Forward(x.state, y.state) &&
    (y.turn != x.turn ==> y.state == x.state && (x.state == Pending || x.state == AnswerIntent)) &&
    (x.state != Pending || y.state != AnswerIntent ==> y.answer == x.answer && y.key == x.key)
  }

  predicate OneInput(e: Event) {
    e.ClaimEvent? || e.DismissEvent? || e.AnswerEvent? || e.DeliverEvent? || e.EndEvent?
  }

  lemma AnswerAdvances(b: Broker, e: Event, i: nat)
    requires i < |b.control.inputs| && e.AnswerEvent?
    ensures i < |After(b, e).control.inputs| && Advances(b.control.inputs[i], After(b, e).control.inputs[i])
  {
    hide ReceiptIndex;
  }

  lemma OneAdvances(b: Broker, e: Event, i: nat)
    requires i < |b.control.inputs| && OneInput(e)
    ensures i < |After(b, e).control.inputs| && Advances(b.control.inputs[i], After(b, e).control.inputs[i])
  {
    hide Answer, Request, Withdraw, SettleTurn, Cancel, Adopt, ReleaseClient, Correlate, Sweep, Finish;
    if e.AnswerEvent? { AnswerAdvances(b, e, i); }
  }

  lemma StepAdvances(b: Broker, e: Event, i: nat)
    requires i < |b.control.inputs|
    ensures i < |After(b, e).control.inputs| && Advances(b.control.inputs[i], After(b, e).control.inputs[i])
  {
    hide Answer, ClaimInput, Dismiss, Deliver, EndRequest, Correlates, Undelivered, DuplicateNative;
    if OneInput(e) { OneAdvances(b, e, i); }
  }

  predicate Reaches(a: InputState, b: InputState) {
    Forward(a, b) || a == Pending
  }

  // ---------- the invariant ----------

  predicate UniqueInputs(inputs: seq<Input>) {
    forall i, j :: 0 <= i < j < |inputs| ==> inputs[i].id != inputs[j].id
  }

  /** A claim stands only on a pending input, in the current control generation; an answer only past pending. */
  predicate InputOk(c: Control, x: Input) {
    (x.claim.Some? ==> x.state == Pending && x.claim.value.generation == c.generation) &&
    (x.answer.Some? <==> x.key.Some?) && (x.answer.Some? ==> x.state != Pending) &&
    (x.state == AnswerIntent || x.state == Settled || x.state == DeliveryUnknown ==> x.answer.Some?) &&
    (x.key.Some? ==> Answered(c.receipts, x))
  }

  /** The answer's key is acknowledged by the receipt for exactly this input and answer. */
  predicate Answered(rs: seq<Receipt>, x: Input)
    requires x.key.Some? && x.answer.Some?
  {
    exists i :: 0 <= i < |rs| && rs[i].key == x.key.value && rs[i].contents.inputId == x.id && rs[i].contents.answer == x.answer.value
  }

  predicate InResolved(b: Broker, id: Id) {
    exists k :: 0 <= k < |b.resolved| && b.resolved[k].0 == id
  }

  /** The durable answer of the input. */
  predicate DurableAnswer(inputs: seq<Input>, id: Id, answer: string) {
    InputIndex(inputs, id) < |inputs| && inputs[InputIndex(inputs, id)].answer == Some(answer)
  }

  predicate OwedOk(b: Broker) {
    forall id :: id in b.owed ==> DurableAnswer(b.control.inputs, id, b.owed[id]) && !InResolved(b, id)
  }

  predicate ResolvedOk(b: Broker) {
    (forall i, j :: 0 <= i < j < |b.resolved| ==> b.resolved[i].0 != b.resolved[j].0) &&
    forall k :: 0 <= k < |b.resolved| ==> DurableAnswer(b.control.inputs, b.resolved[k].0, b.resolved[k].1)
  }

  predicate InputsOk(c: Control) {
    UniqueInputs(c.inputs) && (forall i :: 0 <= i < |c.inputs| ==> InputOk(c, c.inputs[i])) &&
    forall i, j :: 0 <= i < j < |c.receipts| ==> c.receipts[i].key != c.receipts[j].key
  }

  predicate Inv(b: Broker) { InputsOk(b.control) && OwedOk(b) && ResolvedOk(b) }

  // ---------- every step keeps it ----------

  lemma ReceiptsStay(b: Broker, e: Event)
    ensures b.control.receipts <= After(b, e).control.receipts
  {
    hide Answerable, InputIndex, ReceiptIndex;
  }

  lemma AnsweredStays(rs: seq<Receipt>, later: seq<Receipt>, x: Input)
    requires rs <= later && x.key.Some? && x.answer.Some? && Answered(rs, x)
    ensures Answered(later, x)
  {
    var i :| 0 <= i < |rs| && rs[i].key == x.key.value && rs[i].contents.inputId == x.id && rs[i].contents.answer == x.answer.value;
    assert later[i] == rs[i];
  }

  lemma StepReceiptsSame(b: Broker, e: Event)
    requires !e.AnswerEvent?
    ensures After(b, e).control.receipts == b.control.receipts
    ensures After(b, e).control.generation == b.control.generation || e.AdoptEvent?
  {
    hide Answer, InputIndex, Correlates, Undelivered, DuplicateNative;
  }

  lemma OneStaysOk(b: Broker, e: Event, i: nat)
    requires i < |b.control.inputs| && InputOk(b.control, b.control.inputs[i]) && OneInput(e) && !e.AnswerEvent?
    ensures i < |After(b, e).control.inputs| && InputOk(After(b, e).control, After(b, e).control.inputs[i])
  {
    hide Answer, Request, Withdraw, SettleTurn, Cancel, Adopt, ReleaseClient, Correlate, Sweep, Finish;
    StepReceiptsSame(b, e);
  }

  /** Each input keeps its own clauses. */
  lemma InputStaysOk(b: Broker, e: Event, i: nat)
    requires i < |b.control.inputs| && InputOk(b.control, b.control.inputs[i]) && !e.AnswerEvent?
    ensures i < |After(b, e).control.inputs| && InputOk(After(b, e).control, After(b, e).control.inputs[i])
  {
    hide Answer, ClaimInput, Dismiss, Deliver, EndRequest, Correlates, Undelivered, DuplicateNative;
    StepReceiptsSame(b, e);
    if OneInput(e) { OneStaysOk(b, e, i); }
  }

  lemma AnswerStaysOk(b: Broker, e: Event, i: nat)
    requires i < |b.control.inputs| && InputOk(b.control, b.control.inputs[i]) && e.AnswerEvent?
    ensures i < |After(b, e).control.inputs| && InputOk(After(b, e).control, After(b, e).control.inputs[i])
  {
    var t := After(b, e);
    ReceiptsStay(b, e);
    if b.control.inputs[i].key.Some? { AnsweredStays(b.control.receipts, t.control.receipts, b.control.inputs[i]); }
    if t != b && i == InputIndex(b.control.inputs, e.id) {
      assert t.control.receipts[|b.control.receipts|] == Receipt(e.key, Contents(e.id, e.generation, e.answer));
    }
  }

  lemma StaysUnique(b: Broker, e: Event)
    requires InputsOk(b.control) && Admissible(b, e)
    ensures UniqueInputs(After(b, e).control.inputs)
    ensures forall i :: 0 <= i < |b.control.inputs| ==> After(b, e).control.inputs[i].id == b.control.inputs[i].id
    ensures |After(b, e).control.inputs| == |b.control.inputs| ||
            (e.RequestEvent? && |After(b, e).control.inputs| == |b.control.inputs| + 1 && After(b, e).control.inputs[|b.control.inputs|].id == e.id)
  {
    hide InputOk;
    forall i | 0 <= i < |b.control.inputs| ensures After(b, e).control.inputs[i].id == b.control.inputs[i].id { StepAdvances(b, e, i); }
  }

  lemma ReceiptsUnique(b: Broker, e: Event)
    requires InputsOk(b.control)
    ensures forall i, j :: 0 <= i < j < |After(b, e).control.receipts| ==> After(b, e).control.receipts[i].key != After(b, e).control.receipts[j].key
  {
    hide InputOk, UniqueInputs, Answerable;
  }

  lemma InputsKept(b: Broker, e: Event)
    requires InputsOk(b.control) && Admissible(b, e)
    ensures InputsOk(After(b, e).control)
  {
    var t := After(b, e);
    StaysUnique(b, e);
    ReceiptsUnique(b, e);
    forall i | 0 <= i < |t.control.inputs| ensures InputOk(t.control, t.control.inputs[i]) {
      if i < |b.control.inputs| {
        if e.AnswerEvent? { AnswerStaysOk(b, e, i); } else { InputStaysOk(b, e, i); }
      }
    }
  }

  lemma FoundStays(inputs: seq<Input>, next: seq<Input>, id: Id)
    requires |inputs| <= |next| && forall i :: 0 <= i < |inputs| ==> next[i].id == inputs[i].id
    requires InputIndex(inputs, id) < |inputs|
    ensures InputIndex(next, id) == InputIndex(inputs, id)
  {
  }

  /** A durable answer is never rewritten. */
  lemma DurableStays(b: Broker, e: Event, id: Id, answer: string)
    requires InputsOk(b.control) && Admissible(b, e) && DurableAnswer(b.control.inputs, id, answer)
    ensures DurableAnswer(After(b, e).control.inputs, id, answer)
  {
    var i := InputIndex(b.control.inputs, id);
    StaysUnique(b, e);
    StepAdvances(b, e, i);
    assert InputOk(b.control, b.control.inputs[i]);
    hide After, Answered, UniqueInputs, Admissible;
    FoundStays(b.control.inputs, After(b, e).control.inputs, id);
  }

  /** An input that is still pending has not been resolved. */
  lemma PendingUnresolved(b: Broker, id: Id)
    requires Inv(b) && InputIndex(b.control.inputs, id) < |b.control.inputs|
    requires b.control.inputs[InputIndex(b.control.inputs, id)].state == Pending
    ensures !InResolved(b, id)
  {
    assert InputOk(b.control, b.control.inputs[InputIndex(b.control.inputs, id)]);
  }

  /** What a step owes and resolves: an answer comes to be owed, and a delivery takes what is owed and may resolve it. */
  lemma OwedMoves(b: Broker, e: Event)
    ensures var t := After(b, e);
      if e.AnswerEvent? then
        t == b || (t.owed == b.owed[e.id := e.answer] && t.resolved == b.resolved && DurableAnswer(t.control.inputs, e.id, e.answer) &&
                   InputIndex(b.control.inputs, e.id) < |b.control.inputs| && b.control.inputs[InputIndex(b.control.inputs, e.id)].state == Pending)
      else if e.DeliverEvent? then
        t == b || (e.id in b.owed && t.owed == b.owed - {e.id} &&
                   (t.resolved == b.resolved || t.resolved == b.resolved + [(e.id, b.owed[e.id])]))
      else t.resolved == b.resolved && (t.owed == b.owed || t.owed == map[])
  {
    hide ReceiptIndex, Correlates, Undelivered, DuplicateNative;
    if e.AnswerEvent? && After(b, e) != b {
      FoundStays(b.control.inputs, After(b, e).control.inputs, e.id);
    }
  }

  lemma StepKeeps(b: Broker, e: Event)
    requires Inv(b) && Admissible(b, e)
    ensures Inv(After(b, e))
  {
    hide InputsOk, After, DurableAnswer;
    var t := After(b, e);
    InputsKept(b, e);
    OwedMoves(b, e);
    forall id | id in b.owed ensures DurableAnswer(t.control.inputs, id, b.owed[id]) { DurableStays(b, e, id, b.owed[id]); }
    forall k | 0 <= k < |b.resolved| ensures DurableAnswer(t.control.inputs, b.resolved[k].0, b.resolved[k].1) {
      DurableStays(b, e, b.resolved[k].0, b.resolved[k].1);
    }
    if e.AnswerEvent? && t != b { PendingUnresolved(b, e.id); }
    if |t.resolved| > |b.resolved| {
      assert forall k :: 0 <= k < |b.resolved| ==> t.resolved[k] == b.resolved[k] && b.resolved[k].0 != e.id;
    }
    forall x | x in t.owed ensures !InResolved(t, x) {
      if x in b.owed { assert !InResolved(b, x); }
    }
  }

  // ---------- runs ----------

  predicate Starts(b: Broker) {
    b.control.inputs == [] && b.control.receipts == [] && b.waiters == {} && b.owed == map[] && b.resolved == []
  }

  predicate Run(bs: seq<Broker>, es: seq<Event>) {
    |bs| == |es| + 1 && Starts(bs[0]) && forall k :: 0 <= k < |es| ==> Admissible(bs[k], es[k]) && bs[k + 1] == After(bs[k], es[k])
  }

  lemma StartHolds(b: Broker)
    requires Starts(b)
    ensures Inv(b)
  {
  }

  lemma {:induction false} RunHolds(bs: seq<Broker>, es: seq<Event>, k: nat)
    requires Run(bs, es) && k < |bs|
    ensures Inv(bs[k])
  {
    hide Inv, After, Admissible, Starts;
    if k == 0 { StartHolds(bs[0]); }
    else {
      RunHolds(bs, es, k - 1);
      StepKeeps(bs[k - 1], es[k - 1]);
    }
  }

  /** Each native request is resolved at most once, and with the answer that is durable for it. */
  lemma ResolvedOnce(bs: seq<Broker>, es: seq<Event>, k: nat, i: nat)
    requires Run(bs, es) && k < |bs| && i < |bs[k].resolved|
    ensures forall j :: 0 <= j < |bs[k].resolved| && bs[k].resolved[j].0 == bs[k].resolved[i].0 ==> j == i
    ensures DurableAnswer(bs[k].control.inputs, bs[k].resolved[i].0, bs[k].resolved[i].1)
  {
    RunHolds(bs, es, k);
    hide InputsOk, OwedOk, DurableAnswer;
  }

  /** A native request is resolved only by a step whose state already holds its answer as durable intent. */
  lemma IntentIsDurableFirst(bs: seq<Broker>, es: seq<Event>, k: nat)
    requires Run(bs, es) && k < |es| && |bs[k + 1].resolved| > |bs[k].resolved|
    ensures es[k].DeliverEvent? && es[k].id in bs[k].owed && DurableAnswer(bs[k].control.inputs, es[k].id, bs[k].owed[es[k].id])
    ensures bs[k + 1].resolved == bs[k].resolved + [(es[k].id, bs[k].owed[es[k].id])]
  {
    RunHolds(bs, es, k);
    hide InputsOk, ResolvedOk, DurableAnswer, After;
    OwedMoves(bs[k], es[k]);
  }

  /** A recorded key keeps finding its own receipt. */
  lemma {:induction false} AcceptedKeyStays(bs: seq<Broker>, es: seq<Event>, j: nat, k: nat, key: Key)
    requires Run(bs, es) && j <= k < |bs| && ReceiptIndex(bs[j].control.receipts, key) < |bs[j].control.receipts|
    ensures ReceiptIndex(bs[k].control.receipts, key) < |bs[k].control.receipts|
    ensures bs[k].control.receipts[ReceiptIndex(bs[k].control.receipts, key)] == bs[j].control.receipts[ReceiptIndex(bs[j].control.receipts, key)]
    decreases k
  {
    hide After, Admissible, Starts;
    if j < k {
      AcceptedKeyStays(bs, es, j, k - 1, key);
      ReceiptsStay(bs[k - 1], es[k - 1]);
    }
  }

  function ContentsOf(e: Event): Contents
    requires e.AnswerEvent?
  {
    Contents(e.id, e.generation, e.answer)
  }

  /** What the client of an answer is told. */
  function ReplyTo(b: Broker, e: Event): Reply
    requires e.AnswerEvent?
  {
    Answer(b, e.id, e.client, e.generation, e.claimId, e.key, e.answer, e.offered).1
  }

  lemma AcceptedRecords(b: Broker, e: Event)
    requires e.AnswerEvent? && ReplyTo(b, e).Accepted?
    ensures var rs := After(b, e).control.receipts;
            ReceiptIndex(rs, e.key) < |rs| && rs[ReceiptIndex(rs, e.key)] == Receipt(e.key, ContentsOf(e))
  {
    var rs := After(b, e).control.receipts;
    assert rs[|b.control.receipts|] == Receipt(e.key, ContentsOf(e));
  }

  lemma RecordedReplies(b: Broker, e: Event, r: Receipt)
    requires e.AnswerEvent? && ReceiptIndex(b.control.receipts, e.key) < |b.control.receipts|
    requires b.control.receipts[ReceiptIndex(b.control.receipts, e.key)] == r
    ensures After(b, e) == b
    ensures ReplyTo(b, e) == if e.generation == b.control.generation && r.contents == ContentsOf(e) then Recorded(r) else Refused
  {
  }

  /** After an accepted answer every later call under its key, by whomever and with whatever, leaves the broker as it is:
      nothing is dispatched again. The same contents in the current generation return the receipt; anything else is refused. */
  lemma RetryDispatchesNothing(bs: seq<Broker>, es: seq<Event>, j: nat, k: nat)
    requires Run(bs, es) && j < k < |es| && es[j].AnswerEvent? && es[k].AnswerEvent? && es[k].key == es[j].key && ReplyTo(bs[j], es[j]).Accepted?
    ensures bs[k + 1] == bs[k]
    ensures ReplyTo(bs[k], es[k]) ==
            if es[k].generation == bs[k].control.generation && ContentsOf(es[k]) == ContentsOf(es[j])
            then Recorded(Receipt(es[j].key, ContentsOf(es[j]))) else Refused
  {
    hide After, Admissible, Starts, ReplyTo, ContentsOf;
    AcceptedRecords(bs[j], es[j]);
    AcceptedKeyStays(bs, es, j + 1, k, es[j].key);
    RecordedReplies(bs[k], es[k], Receipt(es[j].key, ContentsOf(es[j])));
  }

  /** An input's state only moves forward, over a whole run: settled and withdrawn are final, and nothing becomes pending again. */
  lemma {:induction false} OnlyForward(bs: seq<Broker>, es: seq<Event>, j: nat, k: nat, i: nat)
    requires Run(bs, es) && j <= k < |bs| && i < |bs[j].control.inputs|
    ensures i < |bs[k].control.inputs| && bs[k].control.inputs[i].id == bs[j].control.inputs[i].id
    ensures Reaches(bs[j].control.inputs[i].state, bs[k].control.inputs[i].state)
    decreases k
  {
    hide After, Admissible, Starts;
    if j < k {
      OnlyForward(bs, es, j, k - 1, i);
      StepAdvances(bs[k - 1], es[k - 1], i);
    }
  }

  /** While one client holds a claim, another client's claim is refused. */
  lemma OneClaimHolder(b: Broker, id: Id, client: Id, generation: nat, claimId: Id)
    requires InputIndex(b.control.inputs, id) < |b.control.inputs|
    requires b.control.inputs[InputIndex(b.control.inputs, id)].claim.Some?
    requires b.control.inputs[InputIndex(b.control.inputs, id)].claim.value.client != client
    ensures ClaimInput(b, id, client, generation, claimId) == (b, Refused)
  {
  }

  lemma ClaimedStep(b: Broker, e: Event, i: nat)
    requires i < |b.control.inputs| && b.control.inputs[i].claim.Some?
    requires i < |After(b, e).control.inputs| && After(b, e).control.inputs[i].claim.Some?
    ensures After(b, e).control.inputs[i].claim == b.control.inputs[i].claim
  {
    hide Answerable, ReceiptIndex, DuplicateNative, Correlates, Undelivered;
    if e.ClaimEvent? && InputIndex(b.control.inputs, e.id) == i && b.control.inputs[i].claim.value.client != e.client {
      OneClaimHolder(b, e.id, e.client, e.generation, e.claimId);
    }
  }

  /** A claim never passes from one client to another: between two different claims on an input there is a state of the
      run in which nobody holds it. */
  lemma {:induction false} ClaimNeverPasses(bs: seq<Broker>, es: seq<Event>, j: nat, k: nat, i: nat)
    requires Run(bs, es) && j <= k < |bs| && i < |bs[j].control.inputs|
    requires bs[j].control.inputs[i].claim.Some? && i < |bs[k].control.inputs| && bs[k].control.inputs[i].claim.Some?
    requires bs[j].control.inputs[i].claim != bs[k].control.inputs[i].claim
    ensures exists m :: j < m < k && i < |bs[m].control.inputs| && bs[m].control.inputs[i].claim.None?
    decreases k
  {
    hide After, Admissible, Starts;
    if j < k {
      OnlyForward(bs, es, j, k - 1, i);
      if bs[k - 1].control.inputs[i].claim.Some? {
        assert bs[k] == After(bs[k - 1], es[k - 1]);
        ClaimedStep(bs[k - 1], es[k - 1], i);
        ClaimNeverPasses(bs, es, j, k - 1, i);
      }
    }
  }

  lemma OneWithdrawsNothing(b: Broker, e: Event, i: nat)
    requires OneInput(e) && i < |b.control.inputs| && (b.control.inputs[i].state == AnswerIntent || b.control.inputs[i].state == DeliveryUnknown)
    ensures i < |After(b, e).control.inputs| && After(b, e).control.inputs[i].state != Withdrawn
  {
    hide ReceiptIndex, Answerable, Request, Withdraw, SettleTurn, Cancel, Adopt, ReleaseClient, Correlate, Sweep, Finish;
  }

  lemma LostStep(b: Broker, e: Event, i: nat)
    requires i < |b.control.inputs| && (b.control.inputs[i].state == AnswerIntent || b.control.inputs[i].state == DeliveryUnknown)
    requires i < |After(b, e).control.inputs| && After(b, e).control.inputs[i].state == Withdrawn
    ensures e == FinishEvent(true)
  {
    hide Answer, ClaimInput, Dismiss, Deliver, EndRequest, DuplicateNative, Correlates;
    if OneInput(e) { OneWithdrawsNothing(b, e, i); }
    assert Undelivered(b.control);
  }

  /** An answer that is durable is given up only once the worker's stop is reconciled, by the recovery after it or by the operator's
      own assertion. */
  lemma {:induction false} AnswersAreNotDropped(bs: seq<Broker>, es: seq<Event>, j: nat, k: nat, i: nat)
    requires Run(bs, es) && j <= k < |bs| && i < |bs[j].control.inputs| && i < |bs[k].control.inputs|
    requires bs[j].control.inputs[i].state == AnswerIntent || bs[j].control.inputs[i].state == DeliveryUnknown
    requires bs[k].control.inputs[i].state == Withdrawn
    ensures exists m :: j <= m < k && es[m] == FinishEvent(true)
    decreases k
  {
    hide After, Admissible, Starts;
    if j < k {
      OnlyForward(bs, es, j, k - 1, i);
      assert bs[k] == After(bs[k - 1], es[k - 1]);
      StepAdvances(bs[k - 1], es[k - 1], i);
      if bs[k - 1].control.inputs[i].state == Withdrawn { AnswersAreNotDropped(bs, es, j, k - 1, i); }
      else { LostStep(bs[k - 1], es[k - 1], i); }
    }
  }

  /** A claim stands only on a pending input and in the current control generation. */
  lemma ClaimsAreCurrent(bs: seq<Broker>, es: seq<Event>, k: nat, i: nat)
    requires Run(bs, es) && k < |bs| && i < |bs[k].control.inputs| && bs[k].control.inputs[i].claim.Some?
    ensures bs[k].control.inputs[i].state == Pending && bs[k].control.inputs[i].claim.value.generation == bs[k].control.generation
  {
    RunHolds(bs, es, k);
    hide OwedOk, ResolvedOk, Answered;
    assert InputOk(bs[k].control, bs[k].control.inputs[i]);
  }
}
