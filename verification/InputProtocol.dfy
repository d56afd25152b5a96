/** Durable answers to native input requests: a client claims a pending input, its answer becomes durable intent,
    and only then is the waiting native request resolved. */
module InputProtocol {
  datatype Option<+T> = None | Some(value: T)

  type Id = string
  type Key = string

  datatype InputState = Pending | AnswerIntent | Settled | Withdrawn | DeliveryUnknown
  datatype Claim = Claim(id: Id, client: Id, generation: nat)
  datatype Input = Input(id: Id, nativeId: string, runId: Id, turn: string, state: InputState, claim: Option<Claim>,
                         answer: Option<string>, key: Option<Key>)
  /** What an answer's operation key acknowledges. */
  datatype Contents = Contents(inputId: Id, generation: nat, answer: string)
  datatype Receipt = Receipt(key: Key, contents: Contents)

  /** The durable task control, as far as inputs read it; `closed` is a terminal, finalizing or settled task. */
  datatype Control = Control(generation: nat, runId: Id, turn: Option<string>, cancelled: bool, closed: bool,
                             inputs: seq<Input>, receipts: seq<Receipt>)

  /** `waiters` are the native requests this process can still resolve, `owed` the committed answers on their way to
      them, and `resolved` what was handed to a native request, in order. */
  datatype Broker = Broker(control: Control, waiters: set<Id>, owed: map<Id, string>, resolved: seq<(Id, string)>)

  datatype Reply = Refused | Recorded(receipt: Receipt) | Accepted(receipt: Receipt) | Claimed(claim: Claim) | Done

  function InputIndex(inputs: seq<Input>, id: Id): (i: nat)
    ensures i <= |inputs|
    ensures i < |inputs| ==> inputs[i].id == id
    ensures forall j :: 0 <= j < i ==> inputs[j].id != id
  {
    if inputs == [] || inputs[0].id == id then 0 else 1 + InputIndex(inputs[1..], id)
  }

  function ReceiptIndex(rs: seq<Receipt>, key: Key): (i: nat)
    ensures i <= |rs|
    ensures i < |rs| ==> rs[i].key == key
    ensures forall j :: 0 <= j < i ==> rs[j].key != key
  {
    if rs == [] || rs[0].key == key then 0 else 1 + ReceiptIndex(rs[1..], key)
  }

  function WithInput(b: Broker, i: nat, x: Input): Broker
    requires i < |b.control.inputs|
  {
    b.(control := b.control.(inputs := b.control.inputs[i := x]))
  }

  // ---------- the sections ----------

  /** The waiter is registered before the request becomes visible to clients. */
  function Register(b: Broker, id: Id): Broker { b.(waiters := b.waiters + {id}) }

  predicate DuplicateNative(inputs: seq<Input>, nativeId: string, turn: string) {
    exists i :: 0 <= i < |inputs| && inputs[i].nativeId == nativeId && inputs[i].turn == turn && inputs[i].state == Pending
  }

  function Request(b: Broker, id: Id, nativeId: string): (Broker, Reply) {
    var turn := if b.control.turn.Some? then b.control.turn.value else b.control.runId;
    if b.control.cancelled || b.control.closed || DuplicateNative(b.control.inputs, nativeId, turn) then (b, Refused)
    else (b.(control := b.control.(inputs := b.control.inputs + [Input(id, nativeId, b.control.runId, turn, Pending, None, None, None)])), Done)
  }

  /** One client presents an input at a time. */
  function ClaimInput(b: Broker, id: Id, client: Id, generation: nat, claimId: Id): (Broker, Reply) {
    var i := InputIndex(b.control.inputs, id);
    if generation != b.control.generation || i == |b.control.inputs| || b.control.inputs[i].state != Pending ||
       b.control.cancelled || b.control.closed || id !in b.waiters then (b, Refused)
    else
      var x := b.control.inputs[i];
      if x.claim.Some? && x.claim.value.client != client then (b, Refused)
      else if x.claim.Some? then (b, Claimed(x.claim.value))
      else (WithInput(b, i, x.(claim := Some(Claim(claimId, client, generation)))), Claimed(Claim(claimId, client, generation)))
  }

  function Dismiss(b: Broker, id: Id, client: Id, claimId: Id): Broker {
    var i := InputIndex(b.control.inputs, id);
    if i < |b.control.inputs| && b.control.inputs[i].claim.Some? && b.control.inputs[i].claim.value.id == claimId &&
       b.control.inputs[i].claim.value.client == client
    then WithInput(b, i, b.control.inputs[i].(claim := None)) else b
  }

  predicate Answerable(b: Broker, i: nat, client: Id, claimId: Id, offered: bool)
    requires i < |b.control.inputs|
  {
    var x := b.control.inputs[i];
    x.state == Pending && x.claim.Some? && x.claim.value.id == claimId && x.claim.value.client == client &&
    !b.control.cancelled && !b.control.closed && x.id in b.waiters &&
    x.runId == b.control.runId && Some(x.turn) == b.control.turn && offered
  }

  /** Makes the answer durable intent; `offered` is the check of the answer against the request's own choices. */
  function Answer(b: Broker, id: Id, client: Id, generation: nat, claimId: Id, key: Key, answer: string, offered: bool): (Broker, Reply) {
    var contents := Contents(id, generation, answer);
    var r := ReceiptIndex(b.control.receipts, key);
    var i := InputIndex(b.control.inputs, id);
    if generation != b.control.generation then (b, Refused)
    else if r < |b.control.receipts| then
      if b.control.receipts[r].contents == contents then (b, Recorded(b.control.receipts[r])) else (b, Refused)
    else if i == |b.control.inputs| || !Answerable(b, i, client, claimId, offered) then (b, Refused)
    else
      var x := b.control.inputs[i].(answer := Some(answer), key := Some(key), state := AnswerIntent, claim := None);
      var next := WithInput(b, i, x);
      (next.(control := next.control.(receipts := b.control.receipts + [Receipt(key, contents)]), owed := b.owed[id := answer]),
       Accepted(Receipt(key, contents)))
  }

  /** The committed answer reaches its waiting request, or its delivery is recorded as unknown. */
  function Deliver(b: Broker, id: Id): Broker {
    if id !in b.owed then b
    else
      var rest := b.(owed := b.owed - {id});
      var i := InputIndex(b.control.inputs, id);
      if id in b.waiters then rest.(resolved := b.resolved + [(id, b.owed[id])], waiters := b.waiters - {id})
      else if i < |b.control.inputs| && b.control.inputs[i].state == AnswerIntent
      then WithInput(rest, i, b.control.inputs[i].(state := DeliveryUnknown)) else rest
  }

  function WithdrawOne(x: Input, nativeId: string, turn: Option<string>): Input {
    if x.nativeId == nativeId && Some(x.turn) == turn && x.state == Pending then x.(state := Withdrawn, claim := None) else x
  }

  function Map(inputs: seq<Input>, f: Input -> Input): (r: seq<Input>)
    ensures |r| == |inputs| && forall i :: 0 <= i < |r| ==> r[i] == f(inputs[i])
  {
    seq(|inputs|, i requires 0 <= i < |inputs| => f(inputs[i]))
  }

  function WithdrawAll(inputs: seq<Input>, nativeId: string, turn: Option<string>): (r: seq<Input>)
    ensures |r| == |inputs| && forall i :: 0 <= i < |r| ==> r[i] == WithdrawOne(inputs[i], nativeId, turn)
  {
    Map(inputs, (x: Input) => WithdrawOne(x, nativeId, turn))
  }

  /** The identities of the inputs a change touched, over the first `n` inputs. */
  function Changed(was: seq<Input>, next: seq<Input>, n: nat): set<Id>
    requires n <= |was| && n <= |next|
  {
    set i | 0 <= i < n && next[i] != was[i] :: next[i].id
  }

  /** The native runtime withdraws its request of the current turn; its waiter is rejected. */
  function Withdraw(b: Broker, nativeId: string): Broker {
    var next := WithdrawAll(b.control.inputs, nativeId, b.control.turn);
    b.(control := b.control.(inputs := next), waiters := b.waiters - Changed(b.control.inputs, next, |next|))
  }

  function SettleOne(x: Input, turn: string): Input {
    if x.turn == turn && x.state == AnswerIntent then x.(state := Settled) else x
  }

  function SettleAll(inputs: seq<Input>, turn: string): (r: seq<Input>)
    ensures |r| == |inputs| && forall i :: 0 <= i < |r| ==> r[i] == SettleOne(inputs[i], turn)
  {
    Map(inputs, (x: Input) => SettleOne(x, turn))
  }

  function SettleTurn(b: Broker, turn: string): Broker {
    b.(control := b.control.(inputs := SettleAll(b.control.inputs, turn)))
  }

  /** The request ends; an aborted one withdraws what is still pending. */
  function EndRequest(b: Broker, id: Id, aborted: bool): Broker {
    var i := InputIndex(b.control.inputs, id);
    var rest := b.(waiters := b.waiters - {id});
    if aborted && i < |b.control.inputs| && b.control.inputs[i].state == Pending
    then WithInput(rest, i, b.control.inputs[i].(state := Withdrawn, claim := None)) else rest
  }

  function CancelOne(x: Input): Input {
    if x.state == Pending then x.(claim := None, state := Withdrawn) else x.(claim := None)
  }

  function Cancel(b: Broker): Broker {
    if b.control.cancelled || b.control.closed then b
    else b.(control := b.control.(cancelled := true, inputs := Map(b.control.inputs, CancelOne)))
  }

  function Unclaimed(x: Input): Input { x.(claim := None) }

  /** Adoption starts a new control generation and drops every claim. */
  function Adopt(b: Broker): Broker {
    b.(control := b.control.(generation := b.control.generation + 1, inputs := Map(b.control.inputs, Unclaimed)))
  }

  function ReleaseOne(x: Input, client: Id): Input {
    if x.claim.Some? && x.claim.value.client == client then x.(claim := None) else x
  }

  function ReleaseClient(b: Broker, client: Id): Broker {
    b.(control := b.control.(inputs := Map(b.control.inputs, (x: Input) => ReleaseOne(x, client))))
  }

  function NextTurn(b: Broker, turn: string): Broker { b.(control := b.control.(turn := Some(turn))) }

  predicate Unsettled(x: Input) {
    x.state == Pending || x.state == AnswerIntent || x.state == DeliveryUnknown
  }

  function CorrelateOne(x: Input, provisional: string, turn: string): Input {
    if x.turn == provisional && (x.state == Pending || x.state == AnswerIntent) then x.(turn := turn) else x
  }

  /** The native turn takes the place of the provisional one, with its open inputs, if nothing else is open; `fits` is the
      check of the native session and its coverage. */
  predicate Correlates(c: Control, provisional: string, fits: bool) {
    fits && c.turn == Some(provisional) && !c.cancelled && !c.closed &&
    forall i :: 0 <= i < |c.inputs| ==>
      (Unsettled(c.inputs[i]) ==> c.inputs[i].turn == provisional) &&
      !(c.inputs[i].turn == provisional && c.inputs[i].state == DeliveryUnknown)
  }

  function Correlate(b: Broker, provisional: string, turn: string, fits: bool): Broker {
    if !Correlates(b.control, provisional, fits) then b
    else b.(control := b.control.(turn := Some(turn), inputs := Map(b.control.inputs, (x: Input) => CorrelateOne(x, provisional, turn))))
  }

  function SweepOne(x: Input): Input {
    x.(claim := None, state := if x.state == Pending then Withdrawn else if x.state == AnswerIntent then DeliveryUnknown else x.state)
  }

  /** The end of a task's run, or the recovery of an interrupted one: what is still open is withdrawn, what was on its
      way is unknown. */
  function Sweep(b: Broker, closes: bool): Broker {
    b.(control := b.control.(closed := b.control.closed || closes, inputs := Map(b.control.inputs, SweepOne)))
  }

  predicate Undelivered(c: Control) {
    exists i :: 0 <= i < |c.inputs| && (c.inputs[i].state == AnswerIntent || c.inputs[i].state == DeliveryUnknown)
  }

  function FinishOne(x: Input): Input {
    x.(claim := None, state := if x.state == Settled then Settled else Withdrawn)
  }

  /** Recovery closes a task whose result is retained, settled or finalizing ones included; inputs of unknown delivery
      stand in its way until the stop of the worker is reconciled.  `reconciled` is also the operator's own assertion of
      that stop, which withdraws them even on a terminal task. */
  function Finish(b: Broker, reconciled: bool): Broker {
    if Undelivered(b.control) && !reconciled then b
    else Restart(b.(control := b.control.(closed := true, inputs := Map(b.control.inputs, FinishOne))))
  }

  /** A restart keeps the durable control and nothing else. */
  function Restart(b: Broker): Broker { b.(waiters := {}, owed := map[]) }
}
