/** The input broker: waiting native requests in memory, and the task's durable inputs edited in place. */
module InputBroker {
  import opened InputProtocol

  class InputBroker {
    var generation: nat
    var runId: Id
    var turn: Option<string>
    var cancelled: bool
    var closed: bool
    var inputs: seq<Input>
    var receipts: seq<Receipt>
    var pending: set<Id>
    var owed: map<Id, string>
    var resolved: seq<(Id, string)>

    function View(): Broker
      reads this
    {
      Broker(Control(generation, runId, turn, cancelled, closed, inputs, receipts), pending, owed, resolved)
    }

    constructor (control: Control)
      ensures View() == Broker(control, {}, map[], [])
    {
      generation, runId, turn, cancelled, closed := control.generation, control.runId, control.turn, control.cancelled, control.closed;
      inputs, receipts := control.inputs, control.receipts;
      pending, owed, resolved := {}, map[], [];
    }

    method Find(id: Id) returns (i: nat)
      ensures i == InputIndex(inputs, id)
    {
      i := 0;
      while i < |inputs| && inputs[i].id != id
        invariant 0 <= i <= |inputs|
        invariant InputIndex(inputs, id) == i + InputIndex(inputs[i..], id)
      {
        assert inputs[i..][1..] == inputs[i + 1..] && inputs[i..][0] == inputs[i];
        i := i + 1;
      }
      assert i < |inputs| ==> inputs[i..][0] == inputs[i];
    }

    method ClaimInput(id: Id, client: Id, expected: nat, claimId: Id) returns (reply: Reply)
      modifies this`inputs
      ensures (View(), reply) == InputProtocol.ClaimInput(old(View()), id, client, expected, claimId)
    {
      hide InputIndex;
      var i := Find(id);
      if expected != generation || i == |inputs| || inputs[i].state != Pending || cancelled || closed || id !in pending { return Refused; }
      var claim := inputs[i].claim;
      if claim.Some? && claim.value.client != client { return Refused; }
      if claim.Some? { return Claimed(claim.value); }
      inputs := inputs[i := inputs[i].(claim := Some(Claim(claimId, client, expected)))];
      reply := Claimed(Claim(claimId, client, expected));
    }

    /** The answer becomes durable intent with its receipt; only then is it owed to the native request. */
    method Answer(id: Id, client: Id, expected: nat, claimId: Id, key: Key, answer: string, offered: bool) returns (reply: Reply)
      modifies this`inputs, this`receipts, this`owed
      ensures (View(), reply) == InputProtocol.Answer(old(View()), id, client, expected, claimId, key, answer, offered)
    {
      hide InputIndex, ReceiptIndex;
      var contents := Contents(id, expected, answer);
      if expected != generation { return Refused; }
      var r := ReceiptIndex(receipts, key);
      if r < |receipts| {
        if receipts[r].contents == contents { return Recorded(receipts[r]); }
        return Refused;
      }
      var i := Find(id);
      if i == |inputs| || !Answerable(View(), i, client, claimId, offered) { return Refused; }
      inputs := inputs[i := inputs[i].(answer := Some(answer), key := Some(key), state := AnswerIntent, claim := None)];
      receipts := receipts + [Receipt(key, contents)];
      owed := owed[id := answer];
      reply := Accepted(Receipt(key, contents));
    }

    /** Resolves the waiting request, or records that its delivery is unknown. */
    method Deliver(id: Id)
      modifies this`owed, this`resolved, this`pending, this`inputs
      ensures View() == InputProtocol.Deliver(old(View()), id)
    {
      hide InputIndex;
      if id !in owed { return; }
      var i := Find(id);
      if id in pending {
        resolved := resolved + [(id, owed[id])];
        pending := pending - {id};
      } else if i < |inputs| && inputs[i].state == AnswerIntent {
        inputs := inputs[i := inputs[i].(state := DeliveryUnknown)];
      }
      owed := owed - {id};
    }

    /** Withdraws every pending input of the native request in the current turn, and rejects its waiters. */
    method Withdraw(nativeId: string)
      modifies this`inputs, this`pending
      ensures View() == InputProtocol.Withdraw(old(View()), nativeId)
    {
      ghost var was := inputs;
      var i := 0;
      var gone: set<Id> := {};
      while i < |inputs|
        invariant 0 <= i <= |inputs| == |was|
        invariant forall j :: 0 <= j < i ==> inputs[j] == WithdrawOne(was[j], nativeId, turn)
        invariant forall j :: i <= j < |inputs| ==> inputs[j] == was[j]
        invariant gone == Changed(was, inputs, i) && pending == old(pending)
      {
        ghost var before := inputs;
        if inputs[i].nativeId == nativeId && Some(inputs[i].turn) == turn && inputs[i].state == Pending {
          inputs := inputs[i := inputs[i].(state := Withdrawn, claim := None)];
          gone := gone + {inputs[i].id};
        }
        assert forall j :: 0 <= j < i ==> inputs[j] == before[j];
        i := i + 1;
      }
      assert inputs == WithdrawAll(was, nativeId, turn);
      assert i == |inputs| && gone == Changed(was, inputs, |inputs|);
      pending := pending - gone;
    }

    method SettleTurn(settled: string)
      modifies this`inputs
      ensures View() == InputProtocol.SettleTurn(old(View()), settled)
    {
      ghost var was := inputs;
      var i := 0;
      while i < |inputs|
        invariant 0 <= i <= |inputs| == |was|
        invariant forall j :: 0 <= j < i ==> inputs[j] == SettleOne(was[j], settled)
        invariant forall j :: i <= j < |inputs| ==> inputs[j] == was[j]
      {
        if inputs[i].turn == settled && inputs[i].state == AnswerIntent { inputs := inputs[i := inputs[i].(state := Settled)]; }
        i := i + 1;
      }
      assert inputs == SettleAll(was, settled);
    }
  }
}
