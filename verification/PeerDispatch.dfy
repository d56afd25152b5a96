/** Dispatch and receipts of one task's peer deliveries under optimistic retries: a caller reads the control,
    checks it outside the lock, and commits only if the revision it read still stands. */
module PeerDispatch {
  import opened PeerDelivery

  /** The part of the task control that dispatch reads: native obligations, unsettled inputs, and whether the
      native evidence is scoped to a whole turn. */
  datatype Control = Control(revision: nat, deliveries: seq<Delivery>, stopped: bool, obligations: bool, inputs: bool, scoped: bool,
                             turn: Option<string>, session: Option<string>)

  /** What one call of the port holds between its steps. */
  datatype Call = Read(control: Control) | Intended(id: Id) | Returned(id: Id)

  /** One accepted change of one delivery, in commit order. */
  datatype Mark = Mark(index: nat, state: DeliveryState, turn: Option<string>, session: Option<string>)

  datatype World = World(control: Control, calls: map<nat, Call>, log: seq<Mark>)

  datatype Validity = Current | NotCurrent(state: DeliveryState)

  datatype Event =
    | ReadEvent(call: nat)
    | IntendEvent(call: nat, validity: Validity)
    | RecheckEvent(call: nat, validity: Validity)
    | ReceiptEvent(key: string, turn: string, session: string, observed: bool, binding: bool)
    | CancelEvent
    | AppendEvent(delivery: Delivery)
    | NativeEvent(obligations: bool, inputs: bool, scoped: bool, nativeTurn: Option<string>, nativeSession: Option<string>)

  predicate Disposition(s: DeliveryState) { s == Stale || s == Revoked || s == Cancelled || s == Replaced }

  /** The first queued delivery, or the length. */
  function Head(ds: seq<Delivery>): (i: nat)
    ensures i <= |ds|
    ensures i < |ds| ==> ds[i].state == Queued
    ensures forall j :: 0 <= j < i ==> ds[j].state != Queued
  {
    if ds == [] || ds[0].state == Queued then 0 else 1 + Head(ds[1..])
  }

  function IndexOf(ds: seq<Delivery>, id: Id): (i: nat)
    ensures i <= |ds| && (i < |ds| ==> ds[i].id == id)
  {
    if ds == [] || ds[0].id == id then 0 else 1 + IndexOf(ds[1..], id)
  }

  /** Every control change that is not a no-op advances the revision. */
  function Set(w: World, i: nat, d: Delivery): World
    requires i < |w.control.deliveries|
  {
    w.(control := w.control.(deliveries := w.control.deliveries[i := d], revision := w.control.revision + 1),
       log := w.log + [Mark(i, d.state, d.turn, d.session)])
  }

  predicate Enabled(w: World, e: Event) {
    match e
    case ReadEvent(c) => c !in w.calls
    case IntendEvent(c, v) => c in w.calls && w.calls[c].Read? && (v.NotCurrent? ==> Disposition(v.state))
    case RecheckEvent(c, v) => c in w.calls && w.calls[c].Intended? && (v.NotCurrent? ==> Disposition(v.state))
    case AppendEvent(d) => d.state == Queued && d.turn == None && d.session == None && IndexOf(w.control.deliveries, d.id) == |w.control.deliveries|
    case _ => true
  }

  /** Committing a read: retried unless the revision still stands and the head is the one that was checked. */
  function Intend(w: World, c: nat, v: Validity): World
    requires c in w.calls && w.calls[c].Read?
  {
    var read := w.calls[c].control;
    var i := Head(w.control.deliveries);
    if w.control.revision != read.revision || i == |w.control.deliveries| || Head(read.deliveries) >= |read.deliveries| ||
       w.control.deliveries[i].id != read.deliveries[Head(read.deliveries)].id then w.(calls := w.calls[c := Read(w.control)])
    else
      var d := w.control.deliveries[i];
      if v.NotCurrent? then
        var t := Set(w, i, d.(state := v.state));
        t.(calls := w.calls[c := Read(t.control)])
      else if !w.control.scoped || w.control.obligations || w.control.inputs then w.(calls := w.calls - {c})
      else Set(w, i, d.(state := DispatchIntent)).(calls := w.calls[c := Intended(d.id)])
  }

  /** The last check before the envelope leaves: an intent that is no longer current is withheld. */
  function Recheck(w: World, c: nat, v: Validity): World
    requires c in w.calls && w.calls[c].Intended?
  {
    var id := w.calls[c].id;
    if v.Current? then w.(calls := w.calls[c := Returned(id)])
    else
      var i := IndexOf(w.control.deliveries, id);
      var t := if i < |w.control.deliveries| && w.control.deliveries[i].state == DispatchIntent
               then Set(w, i, w.control.deliveries[i].(state := v.state)) else w;
      t.(calls := w.calls[c := Read(t.control)])
  }

  /** A native receipt; `binding` says the recipient is still the one the delivery names. */
  function Receipt(w: World, key: string, turn: string, session: string, observed: bool, binding: bool): World {
    var i := PriorIndex(w.control.deliveries, key);
    if i == |w.control.deliveries| then w
    else
      var d := w.control.deliveries[i];
      if !binding then
        if d.state == DispatchIntent || d.state == Delivered then Set(w, i, d.(state := Unknown)) else w
      else if d.state != (if observed then Delivered else DispatchIntent) then w
      else if w.control.turn != Some(turn) || w.control.session != Some(session) then w
      else if !observed && w.control.scoped then w
      else if observed && (!w.control.scoped || d.turn != Some(turn) || d.session != Some(session) || w.control.obligations) then w
      else Set(w, i, d.(state := if observed then Observed else Delivered, turn := Some(turn), session := Some(session)))
  }

  function Stop(d: Delivery): Delivery {
    if d.state == Queued then d.(state := Cancelled)
    else if d.state == DispatchIntent || d.state == Delivered then d.(state := Unknown)
    else d
  }

  function Stopped(ds: seq<Delivery>): (r: seq<Delivery>)
    ensures |r| == |ds| && forall i :: 0 <= i < |r| ==> r[i] == Stop(ds[i])
  {
    seq(|ds|, i requires 0 <= i < |ds| => Stop(ds[i]))
  }

  function After(w: World, e: Event): World
    requires Enabled(w, e)
  {
    match e
    case ReadEvent(c) => w.(calls := w.calls[c := Read(w.control)])
    case IntendEvent(c, v) => Intend(w, c, v)
    case RecheckEvent(c, v) => Recheck(w, c, v)
    case ReceiptEvent(key, turn, session, observed, binding) => Receipt(w, key, turn, session, observed, binding)
    case CancelEvent =>
      if w.control.stopped then w
      else w.(control := w.control.(stopped := true, deliveries := Stopped(w.control.deliveries), revision := w.control.revision + 1))
    case AppendEvent(d) =>
      w.(control := w.control.(deliveries := w.control.deliveries + [d], revision := w.control.revision + 1))
    case NativeEvent(obligations, inputs, scoped, turn, session) =>
      w.(control := w.control.(obligations := obligations, inputs := inputs, scoped := scoped, turn := turn, session := session, revision := w.control.revision + 1))
  }

  // ---------- how one delivery may move ----------

  function Rank(s: DeliveryState): nat {
    match s
    case Queued => 0
    case DispatchIntent => 1
    case Delivered => 2
    case _ => 3
  }

  /** Queued, intended, delivered and observed in this order; every other state is final. */
  predicate Moves(a: DeliveryState, b: DeliveryState) {
    a == b ||
    (a == Queued && (b == DispatchIntent || Disposition(b))) ||
    (a == DispatchIntent && (b == Delivered || b == Unknown || Disposition(b))) ||
    (a == Delivered && (b == Observed || b == Unknown))
  }

  /** The identity stays, the state moves forward, and a receipt's turn and session stay once written. */
  predicate Advances(a: Delivery, b: Delivery) {
    a.(state := b.state, turn := b.turn, session := b.session) == b && Moves(a.state, b.state) &&
    (a.turn.Some? ==> b.turn == a.turn && b.session == a.session) &&
    (b.state == Observed && a.state != Observed ==> a.state == Delivered && a.turn.Some? && a.session.Some?) &&
    (a.state == b.state ==> a == b)
  }

  /** Before its delivered receipt a delivery names no native turn or session. */
  predicate Clean(w: World) {
    forall i :: 0 <= i < |w.control.deliveries| && Rank(w.control.deliveries[i].state) <= 1 ==>
      w.control.deliveries[i].turn == None && w.control.deliveries[i].session == None
  }

  predicate CleanDelivery(d: Delivery) {
    Rank(d.state) <= 1 ==> d.turn == None && d.session == None
  }

  predicate CleanList(ds: seq<Delivery>) {
    forall i :: 0 <= i < |ds| ==> CleanDelivery(ds[i])
  }

  lemma CleanUpdate(ds: seq<Delivery>, i: nat, d: Delivery)
    requires CleanList(ds) && i < |ds| && CleanDelivery(d)
    ensures CleanList(ds[i := d])
  {
  }

  lemma IntendClean(w: World, c: nat, v: Validity)
    requires c in w.calls && w.calls[c].Read? && (v.NotCurrent? ==> Disposition(v.state)) && CleanList(w.control.deliveries)
    ensures CleanList(Intend(w, c, v).control.deliveries)
  {
    var i := Head(w.control.deliveries);
    if i < |w.control.deliveries| {
      var d := w.control.deliveries[i];
      assert CleanDelivery(d);
      if v.NotCurrent? { CleanUpdate(w.control.deliveries, i, d.(state := v.state)); }
      CleanUpdate(w.control.deliveries, i, d.(state := DispatchIntent));
    }
    hide CleanList;
  }

  lemma RecheckClean(w: World, c: nat, v: Validity)
    requires c in w.calls && w.calls[c].Intended? && (v.NotCurrent? ==> Disposition(v.state)) && CleanList(w.control.deliveries)
    ensures CleanList(Recheck(w, c, v).control.deliveries)
  {
    var i := IndexOf(w.control.deliveries, w.calls[c].id);
    if i < |w.control.deliveries| && v.NotCurrent? { CleanUpdate(w.control.deliveries, i, w.control.deliveries[i].(state := v.state)); }
    hide CleanList;
  }

  lemma ReceiptClean(w: World, key: string, turn: string, session: string, observed: bool, binding: bool)
    requires CleanList(w.control.deliveries)
    ensures CleanList(Receipt(w, key, turn, session, observed, binding).control.deliveries)
  {
    var i := PriorIndex(w.control.deliveries, key);
    if i < |w.control.deliveries| {
      var d := w.control.deliveries[i];
      CleanUpdate(w.control.deliveries, i, d.(state := Unknown));
      CleanUpdate(w.control.deliveries, i, d.(state := if observed then Observed else Delivered, turn := Some(turn), session := Some(session)));
    }
    hide CleanList;
  }

  lemma StepClean(w: World, e: Event)
    requires Enabled(w, e) && Clean(w)
    ensures Clean(After(w, e))
  {
    hide Intend, Recheck, Receipt, IndexOf;
    assert CleanList(w.control.deliveries);
    match e
    case IntendEvent(c, v) => IntendClean(w, c, v);
    case RecheckEvent(c, v) => RecheckClean(w, c, v);
    case ReceiptEvent(key, turn, session, observed, binding) => ReceiptClean(w, key, turn, session, observed, binding);
    case _ =>
    assert CleanList(After(w, e).control.deliveries);
  }

  lemma IntendAdvances(w: World, c: nat, v: Validity, i: nat)
    requires c in w.calls && w.calls[c].Read? && (v.NotCurrent? ==> Disposition(v.state)) && Clean(w) && i < |w.control.deliveries|
    ensures i < |Intend(w, c, v).control.deliveries| && Advances(w.control.deliveries[i], Intend(w, c, v).control.deliveries[i])
  {
  }

  lemma RecheckAdvances(w: World, c: nat, v: Validity, i: nat)
    requires c in w.calls && w.calls[c].Intended? && (v.NotCurrent? ==> Disposition(v.state)) && Clean(w) && i < |w.control.deliveries|
    ensures i < |Recheck(w, c, v).control.deliveries| && Advances(w.control.deliveries[i], Recheck(w, c, v).control.deliveries[i])
  {
  }

  lemma ReceiptAdvances(w: World, key: string, turn: string, session: string, observed: bool, binding: bool, i: nat)
    requires Clean(w) && i < |w.control.deliveries|
    ensures i < |Receipt(w, key, turn, session, observed, binding).control.deliveries|
    ensures Advances(w.control.deliveries[i], Receipt(w, key, turn, session, observed, binding).control.deliveries[i])
  {
  }

  lemma StepAdvances(w: World, e: Event, i: nat)
    requires Enabled(w, e) && Clean(w) && i < |w.control.deliveries|
    ensures i < |After(w, e).control.deliveries| && Advances(w.control.deliveries[i], After(w, e).control.deliveries[i])
  {
    hide Intend, Recheck, Receipt, Clean, IndexOf;
    match e
    case IntendEvent(c, v) => IntendAdvances(w, c, v, i);
    case RecheckEvent(c, v) => RecheckAdvances(w, c, v, i);
    case ReceiptEvent(key, turn, session, observed, binding) => ReceiptAdvances(w, key, turn, session, observed, binding, i);
    case _ =>
  }

  // ---------- runs ----------

  predicate Starts(w: World) {
    w.control.deliveries == [] && w.calls == map[] && w.log == []
  }

  predicate Run(ws: seq<World>, es: seq<Event>) {
    |ws| == |es| + 1 && Starts(ws[0]) && forall k :: 0 <= k < |es| ==> Enabled(ws[k], es[k]) && ws[k + 1] == After(ws[k], es[k])
  }

  lemma {:induction false} RunClean(ws: seq<World>, es: seq<Event>, k: nat)
    requires Run(ws, es) && k < |ws|
    ensures Clean(ws[k])
  {
    hide After, Enabled;
    if k > 0 {
      RunClean(ws, es, k - 1);
      StepClean(ws[k - 1], es[k - 1]);
    }
  }

  predicate Later(a: Delivery, b: Delivery) {
    a.id == b.id && a.source == b.source && a.recipient == b.recipient && Rank(a.state) <= Rank(b.state) &&
    (Rank(a.state) == 3 ==> a == b) && (a.turn.Some? ==> b.turn == a.turn && b.session == a.session)
  }

  lemma AdvancesIsLater(a: Delivery, b: Delivery)
    requires Advances(a, b)
    ensures Later(a, b)
  {
  }

  /** No delivery is lost, returns to the queue or leaves a final state. */
  lemma {:induction false} NeverBack(ws: seq<World>, es: seq<Event>, j: nat, k: nat, i: nat)
    requires Run(ws, es) && j <= k < |ws| && i < |ws[j].control.deliveries|
    ensures i < |ws[k].control.deliveries| && Later(ws[j].control.deliveries[i], ws[k].control.deliveries[i])
    decreases k
  {
    hide After, Enabled, Starts;
    if j < k {
      NeverBack(ws, es, j, k - 1, i);
      RunClean(ws, es, k - 1);
      StepAdvances(ws[k - 1], es[k - 1], i);
      AdvancesIsLater(ws[k - 1].control.deliveries[i], ws[k].control.deliveries[i]);
    }
  }

  // ---------- dispatch ----------

  /** This step puts the delivery at `i` into dispatch. */
  predicate Dispatches(w: World, e: Event, i: nat)
    requires Enabled(w, e)
  {
    i < |w.control.deliveries| && i < |After(w, e).control.deliveries| &&
    w.control.deliveries[i].state == Queued && After(w, e).control.deliveries[i].state == DispatchIntent
  }

  /** A dispatch takes the head of the queue, from a call whose check read exactly the control it commits to. */
  lemma DispatchTakesHead(w: World, e: Event, i: nat)
    requires Enabled(w, e) && Dispatches(w, e, i)
    ensures e.IntendEvent? && e.validity.Current? && i == Head(w.control.deliveries)
    ensures w.calls[e.call].control.revision == w.control.revision
    ensures After(w, e).calls[e.call] == Intended(w.control.deliveries[i].id)
  {
  }

  /** Each delivery enters dispatch at most once. */
  lemma DispatchedOnce(ws: seq<World>, es: seq<Event>, j: nat, k: nat, i: nat)
    requires Run(ws, es) && j < |es| && k < |es| && Dispatches(ws[j], es[j], i) && Dispatches(ws[k], es[k], i)
    ensures j == k
  {
    hide After;
    if j < k { NeverBack(ws, es, j + 1, k, i); }
    if k < j { NeverBack(ws, es, k + 1, j, i); }
  }

  /** Dispatches follow the order of the queue. */
  lemma DispatchInOrder(ws: seq<World>, es: seq<Event>, j: nat, k: nat, a: nat, b: nat)
    requires Run(ws, es) && j < k < |es| && Dispatches(ws[j], es[j], a) && Dispatches(ws[k], es[k], b)
    ensures a < b
  {
    hide After, Enabled;
    DispatchTakesHead(ws[j], es[j], a);
    DispatchTakesHead(ws[k], es[k], b);
    NeverBack(ws, es, j + 1, k, a);
    if b < a {
      assert ws[j].control.deliveries[b].state != Queued;
      NeverBack(ws, es, j, k, b);
    }
  }

  // ---------- the optimistic check ----------

  /** What a call read is an earlier control, and at the same revision it is the current one. */
  predicate Fresh(w: World) {
    forall c :: c in w.calls && w.calls[c].Read? ==>
      w.calls[c].control.revision <= w.control.revision &&
      (w.calls[c].control.revision == w.control.revision ==> w.calls[c].control == w.control)
  }

  lemma StepFresh(w: World, e: Event)
    requires Enabled(w, e) && Fresh(w)
    ensures Fresh(After(w, e))
  {
  }

  lemma {:induction false} RunFresh(ws: seq<World>, es: seq<Event>, k: nat)
    requires Run(ws, es) && k < |ws|
    ensures Fresh(ws[k])
  {
    hide After, Enabled;
    if k > 0 {
      RunFresh(ws, es, k - 1);
      StepFresh(ws[k - 1], es[k - 1]);
    }
  }

  /** A dispatch commits on the very control its validity was checked against. */
  lemma DispatchWasChecked(ws: seq<World>, es: seq<Event>, k: nat, i: nat)
    requires Run(ws, es) && k < |es| && Dispatches(ws[k], es[k], i)
    ensures es[k].IntendEvent? && es[k].call in ws[k].calls && ws[k].calls[es[k].call] == Read(ws[k].control)
    ensures ws[k].control.scoped && !ws[k].control.obligations && !ws[k].control.inputs
  {
    DispatchTakesHead(ws[k], es[k], i);
    RunFresh(ws, es, k);
  }

  // ---------- observation ----------

  /** This step writes the delivered receipt of the delivery at `i`. */
  predicate Delivers(w: World, e: Event, i: nat, turn: string, session: string)
    requires Enabled(w, e)
  {
    i < |w.control.deliveries| && w.control.deliveries[i].state == DispatchIntent && i < |After(w, e).control.deliveries| &&
    After(w, e).control.deliveries[i].state == Delivered && After(w, e).control.deliveries[i].turn == Some(turn) &&
    After(w, e).control.deliveries[i].session == Some(session) && w.control.turn == Some(turn) && w.control.session == Some(session)
  }

  lemma DeliveredStep(w: World, e: Event, i: nat)
    requires Enabled(w, e) && Clean(w) && i < |w.control.deliveries| && i < |After(w, e).control.deliveries|
    requires w.control.deliveries[i].state != Delivered && After(w, e).control.deliveries[i].state == Delivered
    ensures exists turn, session :: Delivers(w, e, i, turn, session)
  {
    StepAdvances(w, e, i);
    assert e.ReceiptEvent? && !e.observed;
    assert Delivers(w, e, i, e.turn, e.session);
  }

  lemma NewIsQueued(w: World, e: Event, i: nat)
    requires Enabled(w, e) && |w.control.deliveries| <= i < |After(w, e).control.deliveries|
    ensures After(w, e).control.deliveries[i].state == Queued
  {
    OnlyAppends(w, e);
    hide Intend, Recheck, Receipt, IndexOf;
  }

  lemma OnlyAppends(w: World, e: Event)
    requires Enabled(w, e)
    ensures e.AppendEvent? || |After(w, e).control.deliveries| == |w.control.deliveries|
  {
    hide IndexOf;
  }

  /** The step at which a delivery that is delivered or observed got its delivered receipt. */
  lemma {:induction false} DeliveredBefore(ws: seq<World>, es: seq<Event>, k: nat, i: nat) returns (j: nat, turn: string, session: string)
    requires Run(ws, es) && k < |ws| && i < |ws[k].control.deliveries|
    requires ws[k].control.deliveries[i].state == Delivered || ws[k].control.deliveries[i].state == Observed
    ensures j < k && Delivers(ws[j], es[j], i, turn, session)
    ensures ws[k].control.deliveries[i].turn == Some(turn) && ws[k].control.deliveries[i].session == Some(session)
  {
    hide After, Clean, Delivers, Starts;
    StartsEmpty(ws, es, k, i);
    var w, e := ws[k - 1], es[k - 1];
    RunClean(ws, es, k - 1);
    if i >= |w.control.deliveries| {
      NewIsQueued(w, e, i);
      assert false;
    } else {
      StepAdvances(w, e, i);
      if w.control.deliveries[i].state == Delivered || w.control.deliveries[i].state == Observed {
        j, turn, session := DeliveredBefore(ws, es, k - 1, i);
      } else {
        DeliveredStep(w, e, i);
        j := k - 1;
        turn, session :| Delivers(w, e, i, turn, session);
        DeliversWrites(w, e, i, turn, session);
      }
    }
  }

  lemma StartsEmpty(ws: seq<World>, es: seq<Event>, k: nat, i: nat)
    requires Run(ws, es) && k < |ws| && i < |ws[k].control.deliveries|
    ensures k > 0
  {
  }

  lemma DeliversWrites(w: World, e: Event, i: nat, turn: string, session: string)
    requires Enabled(w, e) && Delivers(w, e, i, turn, session)
    ensures i < |After(w, e).control.deliveries|
    ensures After(w, e).control.deliveries[i].turn == Some(turn) && After(w, e).control.deliveries[i].session == Some(session)
  {
  }

  /** An observed delivery was delivered before, to the same native turn and session. */
  lemma ObservedWasDelivered(ws: seq<World>, es: seq<Event>, k: nat, i: nat)
    requires Run(ws, es) && k < |ws| && i < |ws[k].control.deliveries| && ws[k].control.deliveries[i].state == Observed
    ensures exists j, turn, session ::
              0 <= j < k && Delivers(ws[j], es[j], i, turn, session) &&
              ws[k].control.deliveries[i].turn == Some(turn) && ws[k].control.deliveries[i].session == Some(session)
  {
    hide After, Enabled, Starts;
    var j, turn, session := DeliveredBefore(ws, es, k, i);
  }
}
