/** Directed peer deliveries of one recipient task: slots reserved ahead of an extension, and the deliveries
    that consume them, within one retained capacity. */
module PeerDelivery {
  datatype Option<+T> = None | Some(value: T)

  type Id = string

  const MAX_PEER_DELIVERIES: nat := 64

  /** The exact recipient a delivery or a slot is for. */
  datatype Recipient = Recipient(taskId: Id, runId: Id, controlGeneration: nat, workspace: string, fingerprint: string)
  datatype Source = Source(workId: Id, workRevision: nat, caseId: Id, caseRevision: nat, caseGeneration: nat,
                           evidence: string, content: string, idempotencyKey: string)
  datatype DeliveryState =
    | Queued | DispatchIntent | Delivered | Observed | Stale | Revoked | Cancelled | Replaced | Unknown
  datatype Delivery = Delivery(id: Id, source: Source, recipient: Recipient, state: DeliveryState,
                               turn: Option<string>, session: Option<string>)

  datatype SlotState = Reserved | Consumed(deliveryId: Id) | ReleasedSlot
  /** What a slot was reserved for; `state` is all that changes afterwards. */
  datatype Slot = Slot(operationKey: string, requestDigest: string, caseId: Id, expectedCaseRevision: nat, caseRevision: nat,
                       caseGeneration: nat, recipient: Recipient, workId: Id, workRevision: nat, state: SlotState)
  datatype SlotSource = SlotSource(workId: Id, workRevision: nat)
  datatype Bundle = Bundle(operationKey: string, requestDigest: string, caseId: Id, expectedCaseRevision: nat, caseRevision: nat,
                           caseGeneration: nat, recipient: Recipient, sources: seq<SlotSource>)

  datatype Error = StaleRecipient | ReservationConflict | KeyConflict | AlreadyReleased | Capacity | ReservationRequired
                 | ReservationStale | CancelledTask | Unavailable | Manifest | AlreadyConsumed
  datatype Result<+T> = Ok(value: T) | Err(error: Error)

  // ---------- counting ----------

  function CountReserved(slots: seq<Slot>): (n: nat)
    ensures n <= |slots|
  {
    if slots == [] then 0 else CountReserved(slots[..|slots| - 1]) + (if slots[|slots| - 1].state == Reserved then 1 else 0)
  }

  lemma CountAppend(slots: seq<Slot>, s: Slot)
    ensures CountReserved(slots + [s]) == CountReserved(slots) + (if s.state == Reserved then 1 else 0)
  {
    assert (slots + [s])[..|slots|] == slots;
  }

  lemma {:induction false} CountUpdate(slots: seq<Slot>, i: nat, s: Slot)
    requires i < |slots|
    ensures CountReserved(slots[i := s]) + (if slots[i].state == Reserved then 1 else 0) ==
            CountReserved(slots) + (if s.state == Reserved then 1 else 0)
  {
    var last := |slots| - 1;
    if i == last {
      assert slots[i := s][..last] == slots[..last];
    } else {
      assert slots[i := s][..last] == slots[..last][i := s];
      CountUpdate(slots[..last], i, s);
    }
  }

  // ---------- reserving ----------

  function SlotFor(b: Bundle, source: SlotSource): Slot {
    Slot(b.operationKey, b.requestDigest, b.caseId, b.expectedCaseRevision, b.caseRevision, b.caseGeneration, b.recipient,
         source.workId, source.workRevision, Reserved)
  }

  predicate SameReservation(a: Slot, b: Slot) { a.(state := b.state) == b }

  function SlotIndex(slots: seq<Slot>, operationKey: string, workId: Id): (i: nat)
    ensures i <= |slots|
    ensures i < |slots| ==> slots[i].operationKey == operationKey && slots[i].workId == workId
    ensures forall j :: 0 <= j < i ==> !(slots[j].operationKey == operationKey && slots[j].workId == workId)
  {
    if slots == [] || (slots[0].operationKey == operationKey && slots[0].workId == workId) then 0
    else 1 + SlotIndex(slots[1..], operationKey, workId)
  }

  /** Another operation already owns recipient slots of this case revision. */
  predicate OtherOperation(slots: seq<Slot>, b: Bundle) {
    exists i :: 0 <= i < |slots| && slots[i].state != ReleasedSlot && slots[i].caseId == b.caseId &&
      slots[i].caseRevision == b.caseRevision && slots[i].caseGeneration == b.caseGeneration && slots[i].operationKey != b.operationKey
  }

  /** One source of the bundle: kept if it is already reserved or consumed, refused if it was released, added if it fits. */
  function ReserveOne(slots: seq<Slot>, retained: nat, b: Bundle, source: SlotSource): Result<seq<Slot>> {
    var wanted := SlotFor(b, source);
    var i := SlotIndex(slots, b.operationKey, source.workId);
    if i < |slots| then
      if !SameReservation(slots[i], wanted) then Err(KeyConflict)
      else if slots[i].state == ReleasedSlot then Err(AlreadyReleased)
      else Ok(slots)
    else if retained + CountReserved(slots) >= MAX_PEER_DELIVERIES then Err(Capacity)
    else Ok(slots + [wanted])
  }

  /** The first `k` sources of the bundle, in order. */
  function ReserveUpTo(slots: seq<Slot>, retained: nat, b: Bundle, k: nat): Result<seq<Slot>>
    requires k <= |b.sources|
  {
    if k == 0 then Ok(slots)
    else
      match ReserveUpTo(slots, retained, b, k - 1)
      case Err(e) => Err(e)
      case Ok(done) => ReserveOne(done, retained, b, b.sources[k - 1])
  }

  /** `current` is the check of the recipient's task, run, workspace and native turn. */
  function Reserve(slots: seq<Slot>, retained: nat, b: Bundle, current: bool): Result<seq<Slot>> {
    if !current then Err(StaleRecipient)
    else if OtherOperation(slots, b) then Err(ReservationConflict)
    else ReserveUpTo(slots, retained, b, |b.sources|)
  }

  lemma {:induction false} ErrorStays(slots: seq<Slot>, retained: nat, b: Bundle, j: nat, k: nat)
    requires j <= k <= |b.sources| && ReserveUpTo(slots, retained, b, j).Err?
    ensures ReserveUpTo(slots, retained, b, k) == ReserveUpTo(slots, retained, b, j)
    decreases k
  {
    if j < k { ErrorStays(slots, retained, b, j, k - 1); }
  }

  /** The loop of the source: the draft list grows in place and is dropped on the first refusal. */
  method ReserveSlots(slots: seq<Slot>, retained: nat, b: Bundle, current: bool) returns (r: Result<seq<Slot>>)
    ensures r == Reserve(slots, retained, b, current)
  {
    if !current { return Err(StaleRecipient); }
    if OtherOperation(slots, b) { return Err(ReservationConflict); }
    var draft := slots;
    var k := 0;
    while k < |b.sources|
      invariant 0 <= k <= |b.sources|
      invariant ReserveUpTo(slots, retained, b, k) == Ok(draft)
    {
      var next := ReserveOne(draft, retained, b, b.sources[k]);
      if next.Err? {
        ErrorStays(slots, retained, b, k + 1, |b.sources|);
        return next;
      }
      draft := next.value;
      k := k + 1;
    }
    return Ok(draft);
  }

  // ---------- queueing ----------

  predicate SlotMatches(s: Slot, source: Source, recipient: Recipient) {
    s.recipient == recipient && s.caseId == source.caseId && s.caseRevision == source.caseRevision &&
    s.caseGeneration == source.caseGeneration && s.workId == source.workId && s.workRevision == source.workRevision
  }

  function ReservedFor(slots: seq<Slot>, source: Source, recipient: Recipient): (i: nat)
    ensures i <= |slots|
    ensures i < |slots| ==> slots[i].state == Reserved && SlotMatches(slots[i], source, recipient)
  {
    if slots == [] || (slots[0].state == Reserved && SlotMatches(slots[0], source, recipient)) then 0
    else 1 + ReservedFor(slots[1..], source, recipient)
  }

  predicate ReleasedFor(slots: seq<Slot>, source: Source, operation: Option<string>) {
    exists i :: 0 <= i < |slots| && slots[i].state == ReleasedSlot && slots[i].caseId == source.caseId &&
      slots[i].caseRevision == source.caseRevision && slots[i].caseGeneration == source.caseGeneration &&
      slots[i].workId == source.workId && Some(slots[i].operationKey) == operation
  }

  predicate ConsumedFor(slots: seq<Slot>, source: Source, recipient: Recipient, operation: string) {
    exists i :: 0 <= i < |slots| && slots[i].state.Consumed? && slots[i].operationKey == operation && slots[i].caseId == source.caseId &&
      slots[i].caseRevision == source.caseRevision && slots[i].caseGeneration == source.caseGeneration &&
      slots[i].workId == source.workId && slots[i].workRevision <= source.workRevision && slots[i].recipient == recipient
  }

  function PriorIndex(ds: seq<Delivery>, key: string): (i: nat)
    ensures i <= |ds|
    ensures i < |ds| ==> ds[i].source.idempotencyKey == key
    ensures forall j :: 0 <= j < i ==> ds[j].source.idempotencyKey != key
  {
    if ds == [] || ds[0].source.idempotencyKey == key then 0 else 1 + PriorIndex(ds[1..], key)
  }

  datatype Queue = Queue(deliveries: seq<Delivery>, slots: seq<Slot>)
  datatype Queueing = QueueRefused(error: Error) | AlreadyQueued(delivery: Delivery) | Enqueued(queue: Queue)

  /** One committed attempt: `accepting` and `current` are the task's and the evidence's own checks. */
  function Enqueue(q: Queue, source: Source, recipient: Recipient, operation: Option<string>, accepting: bool, current: bool, id: Id): Queueing {
    var prior := PriorIndex(q.deliveries, source.idempotencyKey);
    var m := ReservedFor(q.slots, source, recipient);
    if !accepting then QueueRefused(CancelledTask)
    else if !current then QueueRefused(Unavailable)
    else if prior < |q.deliveries| then
      if q.deliveries[prior].source == source then AlreadyQueued(q.deliveries[prior]) else QueueRefused(KeyConflict)
    else if ReleasedFor(q.slots, source, operation) then QueueRefused(AlreadyReleased)
    else if m < |q.slots| && Some(q.slots[m].operationKey) != operation then QueueRefused(ReservationRequired)
    else if m == |q.slots| && operation.Some? && !ConsumedFor(q.slots, source, recipient, operation.value) then QueueRefused(ReservationStale)
    else if m == |q.slots| && |q.deliveries| + CountReserved(q.slots) >= MAX_PEER_DELIVERIES then QueueRefused(Capacity)
    else Enqueued(Queue(q.deliveries + [Delivery(id, source, recipient, Queued, None, None)],
                        if m < |q.slots| then q.slots[m := q.slots[m].(state := Consumed(id))] else q.slots))
  }

  // ---------- releasing ----------

  predicate InBundle(b: Bundle, s: Slot) {
    s.operationKey == b.operationKey
  }

  function SlotsOf(slots: seq<Slot>, operationKey: string): (n: nat) {
    if slots == [] then 0 else SlotsOf(slots[..|slots| - 1], operationKey) + (if slots[|slots| - 1].operationKey == operationKey then 1 else 0)
  }

  /** Every slot of the operation is one the manifest names, with exactly that evidence. */
  predicate Manifested(slots: seq<Slot>, b: Bundle) {
    SlotsOf(slots, b.operationKey) == |b.sources| &&
    (forall i, j :: 0 <= i < j < |b.sources| ==> b.sources[i].workId != b.sources[j].workId) &&
    forall i :: 0 <= i < |slots| && InBundle(b, slots[i]) ==>
      exists k :: 0 <= k < |b.sources| && SameReservation(slots[i], SlotFor(b, b.sources[k]))
  }

  function Freed(slots: seq<Slot>, b: Bundle): (r: seq<Slot>)
    ensures |r| == |slots|
    ensures forall i :: 0 <= i < |r| ==> r[i] == (if InBundle(b, slots[i]) then slots[i].(state := ReleasedSlot) else slots[i])
  {
    seq(|slots|, i requires 0 <= i < |slots| => if InBundle(b, slots[i]) then slots[i].(state := ReleasedSlot) else slots[i])
  }

  /** Releases exactly the operation's unconsumed slots. */
  function Release(slots: seq<Slot>, b: Bundle): Result<seq<Slot>> {
    if SlotsOf(slots, b.operationKey) == 0 then Ok(slots)
    else if !Manifested(slots, b) then Err(Manifest)
    else if exists i :: 0 <= i < |slots| && InBundle(b, slots[i]) && slots[i].state.Consumed? then Err(AlreadyConsumed)
    else Ok(Freed(slots, b))
  }

  // ---------- what every operation keeps ----------

  /** The consumed slot's delivery exists and is for the same case, source and recipient versions. */
  predicate Bound(ds: seq<Delivery>, s: Slot) {
    s.state.Consumed? ==>
      exists i :: 0 <= i < |ds| && ds[i].id == s.state.deliveryId && SlotMatches(s, ds[i].source, ds[i].recipient)
  }

  predicate UniqueSlots(slots: seq<Slot>) {
    forall i, j :: 0 <= i < j < |slots| ==> !(slots[i].operationKey == slots[j].operationKey && slots[i].workId == slots[j].workId)
  }

  predicate UniqueDeliveries(ds: seq<Delivery>) {
    forall i, j :: 0 <= i < j < |ds| ==> ds[i].source.idempotencyKey != ds[j].source.idempotencyKey && ds[i].id != ds[j].id
  }

  predicate SlotsOk(q: Queue) {
    |q.deliveries| + CountReserved(q.slots) <= MAX_PEER_DELIVERIES && UniqueSlots(q.slots) && UniqueDeliveries(q.deliveries) &&
    forall i :: 0 <= i < |q.slots| ==> Bound(q.deliveries, q.slots[i])
  }

  lemma ReserveOneKeeps(q: Queue, b: Bundle, source: SlotSource, slots: seq<Slot>)
    requires SlotsOk(q) && ReserveOne(q.slots, |q.deliveries|, b, source) == Ok(slots)
    ensures SlotsOk(q.(slots := slots)) && q.slots <= slots
  {
    if slots != q.slots { CountAppend(q.slots, SlotFor(b, source)); }
  }

  lemma {:induction false} ReserveKeeps(q: Queue, b: Bundle, k: nat, slots: seq<Slot>)
    requires SlotsOk(q) && k <= |b.sources| && ReserveUpTo(q.slots, |q.deliveries|, b, k) == Ok(slots)
    ensures SlotsOk(q.(slots := slots)) && q.slots <= slots
  {
    if k > 0 {
      var done := ReserveUpTo(q.slots, |q.deliveries|, b, k - 1).value;
      ReserveKeeps(q, b, k - 1, done);
      hide SlotsOk, ReserveOne;
      ReserveOneKeeps(q.(slots := done), b, b.sources[k - 1], slots);
    }
  }

  lemma {:induction false} ReserveHolds(slots: seq<Slot>, retained: nat, b: Bundle, k: nat, next: seq<Slot>, j: nat)
    requires j < k <= |b.sources| && ReserveUpTo(slots, retained, b, k) == Ok(next)
    ensures Holds(next, b, b.sources[j])
  {
    var done := ReserveUpTo(slots, retained, b, k - 1).value;
    ReserveOneHolds(done, retained, b, b.sources[k - 1], next);
    if j < k - 1 {
      ReserveHolds(slots, retained, b, k - 1, done, j);
      HoldsStays(done, next, b, b.sources[j]);
    }
  }

  /** The source's obligation is covered: its slot is reserved or already consumed. */
  predicate Holds(slots: seq<Slot>, b: Bundle, source: SlotSource) {
    exists i :: 0 <= i < |slots| && SameReservation(slots[i], SlotFor(b, source)) && slots[i].state != ReleasedSlot
  }

  lemma ReserveOneHolds(slots: seq<Slot>, retained: nat, b: Bundle, source: SlotSource, next: seq<Slot>)
    requires ReserveOne(slots, retained, b, source) == Ok(next)
    ensures Holds(next, b, source) && slots <= next
  {
    var i := SlotIndex(slots, b.operationKey, source.workId);
    if i == |slots| { assert next[|slots|] == SlotFor(b, source); }
  }

  lemma HoldsStays(slots: seq<Slot>, next: seq<Slot>, b: Bundle, source: SlotSource)
    requires slots <= next && Holds(slots, b, source)
    ensures Holds(next, b, source)
  {
    var i :| 0 <= i < |slots| && SameReservation(slots[i], SlotFor(b, source)) && slots[i].state != ReleasedSlot;
    assert next[i] == slots[i];
  }

  /** All or nothing: a reservation covers every source of its bundle and keeps the capacity, or changes nothing. */
  lemma ReservationCovers(q: Queue, b: Bundle, current: bool, slots: seq<Slot>)
    requires SlotsOk(q) && Reserve(q.slots, |q.deliveries|, b, current) == Ok(slots)
    ensures SlotsOk(q.(slots := slots)) && forall j :: 0 <= j < |b.sources| ==> Holds(slots, b, b.sources[j])
  {
    ReserveKeeps(q, b, |b.sources|, slots);
    forall j | 0 <= j < |b.sources| ensures Holds(slots, b, b.sources[j]) {
      ReserveHolds(q.slots, |q.deliveries|, b, |b.sources|, slots, j);
    }
  }

  lemma BoundStays(ds: seq<Delivery>, d: Delivery, s: Slot)
    requires Bound(ds, s)
    ensures Bound(ds + [d], s)
  {
    if s.state.Consumed? {
      var i :| 0 <= i < |ds| && ds[i].id == s.state.deliveryId && SlotMatches(s, ds[i].source, ds[i].recipient);
      assert (ds + [d])[i] == ds[i];
    }
  }

  /** Queueing keeps the capacity and the match; a consumed slot pays for its own delivery, so the total of
      deliveries and reserved slots does not move. */
  lemma EnqueueKeeps(q: Queue, source: Source, recipient: Recipient, operation: Option<string>, accepting: bool, current: bool, id: Id)
    requires SlotsOk(q) && Enqueue(q, source, recipient, operation, accepting, current, id).Enqueued?
    requires forall i :: 0 <= i < |q.deliveries| ==> q.deliveries[i].id != id
    ensures SlotsOk(Enqueue(q, source, recipient, operation, accepting, current, id).queue)
    ensures var t := Enqueue(q, source, recipient, operation, accepting, current, id).queue;
            |t.deliveries| == |q.deliveries| + 1 &&
            (ReservedFor(q.slots, source, recipient) < |q.slots| ==>
               |t.deliveries| + CountReserved(t.slots) == |q.deliveries| + CountReserved(q.slots))
  {
    var t := Enqueue(q, source, recipient, operation, accepting, current, id).queue;
    var m := ReservedFor(q.slots, source, recipient);
    var d := t.deliveries[|q.deliveries|];
    if m < |q.slots| { CountUpdate(q.slots, m, t.slots[m]); }
    forall i | 0 <= i < |t.slots| ensures Bound(t.deliveries, t.slots[i]) {
      if m < |q.slots| && i == m {
        assert t.deliveries[|q.deliveries|].id == id && SlotMatches(t.slots[m], d.source, d.recipient);
      } else { BoundStays(q.deliveries, d, q.slots[i]); }
    }
    assert UniqueSlots(t.slots);
    assert UniqueDeliveries(t.deliveries);
  }

  /** A delivery with a matching reserved slot, asked for by its operation, is never refused for capacity. */
  lemma ReservedNeverFull(q: Queue, source: Source, recipient: Recipient, operation: Option<string>, accepting: bool, current: bool, id: Id)
    requires ReservedFor(q.slots, source, recipient) < |q.slots|
    ensures Enqueue(q, source, recipient, operation, accepting, current, id) != QueueRefused(Capacity)
  {
  }

  lemma {:induction false} FreedCounts(slots: seq<Slot>, b: Bundle)
    ensures CountReserved(Freed(slots, b)) <= CountReserved(slots)
  {
    if slots != [] {
      var front := slots[..|slots| - 1];
      FreedCounts(front, b);
      assert Freed(slots, b)[..|slots| - 1] == Freed(front, b);
    }
  }

  /** Releasing frees capacity and unbinds nothing that was consumed. */
  lemma ReleaseKeeps(q: Queue, b: Bundle, slots: seq<Slot>)
    requires SlotsOk(q) && Release(q.slots, b) == Ok(slots)
    ensures SlotsOk(q.(slots := slots))
    ensures forall i :: 0 <= i < |slots| && q.slots[i].state.Consumed? ==> slots[i] == q.slots[i]
  {
    FreedCounts(q.slots, b);
    forall i | 0 <= i < |slots| ensures Bound(q.deliveries, slots[i]) { assert Bound(q.deliveries, q.slots[i]); }
  }

  // ---------- the digest clause ----------

  predicate OneDigest(slots: seq<Slot>) {
    forall i, j :: 0 <= i < |slots| && 0 <= j < |slots| && slots[i].operationKey == slots[j].operationKey ==>
      slots[i].requestDigest == slots[j].requestDigest
  }

  predicate SameDigest(slots: seq<Slot>, b: Bundle) {
    forall i :: 0 <= i < |slots| && slots[i].operationKey == b.operationKey ==> slots[i].requestDigest == b.requestDigest
  }

  lemma OneSlotDigest(slots: seq<Slot>, retained: nat, b: Bundle, source: SlotSource, next: seq<Slot>)
    requires OneDigest(slots) && ReserveOne(slots, retained, b, source) == Ok(next)
    ensures OneDigest(next) <==> SameDigest(slots, b)
  {
    var i := SlotIndex(slots, b.operationKey, source.workId);
    if i == |slots| {
      assert next[|slots|] == SlotFor(b, source);
      if OneDigest(next) {
        forall k | 0 <= k < |slots| && slots[k].operationKey == b.operationKey ensures slots[k].requestDigest == b.requestDigest {
          assert next[k] == slots[k];
        }
      }
    } else {
      assert slots[i].requestDigest == b.requestDigest;
    }
  }

  /** What a bundle adds carries its own digest. */
  lemma {:induction false} AddsItsDigest(slots: seq<Slot>, retained: nat, b: Bundle, k: nat, next: seq<Slot>)
    requires k <= |b.sources| && ReserveUpTo(slots, retained, b, k) == Ok(next)
    ensures slots <= next && forall i :: |slots| <= i < |next| ==> next[i].requestDigest == b.requestDigest
  {
    if k > 0 {
      var done := ReserveUpTo(slots, retained, b, k - 1).value;
      AddsItsDigest(slots, retained, b, k - 1, done);
    }
  }

  lemma {:induction false} BundleDigest(slots: seq<Slot>, retained: nat, b: Bundle, k: nat, next: seq<Slot>)
    requires OneDigest(slots) && k <= |b.sources| && ReserveUpTo(slots, retained, b, k) == Ok(next)
    ensures OneDigest(next) <==> k == 0 || SameDigest(slots, b)
  {
    if k > 0 {
      var done := ReserveUpTo(slots, retained, b, k - 1).value;
      BundleDigest(slots, retained, b, k - 1, done);
      AddsItsDigest(slots, retained, b, k - 1, done);
      ReserveOneHolds(done, retained, b, b.sources[k - 1], next);
      hide ReserveOne, ReserveUpTo, Holds;
      if OneDigest(done) {
        OneSlotDigest(done, retained, b, b.sources[k - 1], next);
        SameDigestLater(slots, done, b);
      } else {
        TwoDigestsStay(done, next);
      }
    }
  }

  lemma SameDigestLater(slots: seq<Slot>, done: seq<Slot>, b: Bundle)
    requires slots <= done && forall i :: |slots| <= i < |done| ==> done[i].requestDigest == b.requestDigest
    ensures SameDigest(done, b) <==> SameDigest(slots, b)
  {
    if SameDigest(done, b) { assert forall i :: 0 <= i < |slots| ==> slots[i] == done[i]; }
  }

  lemma TwoDigestsStay(slots: seq<Slot>, next: seq<Slot>)
    requires slots <= next && !OneDigest(slots)
    ensures !OneDigest(next)
  {
    var i, j :| 0 <= i < |slots| && 0 <= j < |slots| && slots[i].operationKey == slots[j].operationKey &&
                slots[i].requestDigest != slots[j].requestDigest;
    assert next[i] == slots[i] && next[j] == slots[j];
  }

  /** A reservation keeps one digest per operation exactly when it asks for nothing or the operation's slots already carry
      its digest. */
  lemma DigestExact(slots: seq<Slot>, retained: nat, b: Bundle, current: bool, next: seq<Slot>)
    requires OneDigest(slots) && Reserve(slots, retained, b, current) == Ok(next)
    ensures OneDigest(next) <==> b.sources == [] || SameDigest(slots, b)
  {
    BundleDigest(slots, retained, b, |b.sources|, next);
  }

  // ---------- runs ----------

  datatype Event =
    | ReserveEvent(bundle: Bundle, current: bool)
    | QueueEvent(source: Source, recipient: Recipient, operation: Option<string>, accepting: bool, current: bool, id: Id)
    | ReleaseEvent(bundle: Bundle)
    | DispatchEvent(index: nat, state: DeliveryState, turn: Option<string>, session: Option<string>)

  /** The clauses no operation checks by itself: the store decodes what it is given and refuses the rest. */
  predicate Decodes(slots: seq<Slot>) {
    |slots| <= MAX_PEER_DELIVERIES && OneDigest(slots)
  }

  /** The draft an operation leaves. */
  function Draft(q: Queue, e: Event): Queue {
    match e
    case ReserveEvent(b, current) =>
      var r := Reserve(q.slots, |q.deliveries|, b, current);
      if r.Ok? then q.(slots := r.value) else q
    case QueueEvent(source, recipient, operation, accepting, current, id) =>
      var r := Enqueue(q, source, recipient, operation, accepting, current, id);
      if r.Enqueued? then r.queue else q
    case ReleaseEvent(b) =>
      var r := Release(q.slots, b);
      if r.Ok? then q.(slots := r.value) else q
    case DispatchEvent(i, state, turn, session) =>
      if i < |q.deliveries| then q.(deliveries := q.deliveries[i := q.deliveries[i].(state := state, turn := turn, session := session)]) else q
  }

  function After(q: Queue, e: Event): Queue {
    if Decodes(Draft(q, e).slots) then Draft(q, e) else q
  }

  /** A queued delivery's identity is new. */
  predicate Admissible(q: Queue, e: Event) {
    e.QueueEvent? ==> forall i :: 0 <= i < |q.deliveries| ==> q.deliveries[i].id != e.id
  }

  lemma DispatchKeeps(q: Queue, i: nat, d: Delivery)
    requires SlotsOk(q) && i < |q.deliveries| && d == q.deliveries[i].(state := d.state, turn := d.turn, session := d.session)
    ensures SlotsOk(q.(deliveries := q.deliveries[i := d]))
  {
    var t := q.deliveries[i := d];
    forall k | 0 <= k < |q.slots| ensures Bound(t, q.slots[k]) {
      assert Bound(q.deliveries, q.slots[k]);
      if q.slots[k].state.Consumed? {
        var j :| 0 <= j < |q.deliveries| && q.deliveries[j].id == q.slots[k].state.deliveryId &&
                 SlotMatches(q.slots[k], q.deliveries[j].source, q.deliveries[j].recipient);
        assert t[j].id == q.deliveries[j].id && t[j].source == q.deliveries[j].source && t[j].recipient == q.deliveries[j].recipient;
      }
    }
    assert UniqueDeliveries(t);
  }

  lemma DraftKeeps(q: Queue, e: Event)
    requires SlotsOk(q) && Admissible(q, e)
    ensures SlotsOk(Draft(q, e))
  {
    hide SlotsOk, Reserve, Enqueue, Release;
    match e
    case ReserveEvent(b, current) =>
      var r := Reserve(q.slots, |q.deliveries|, b, current);
      if r.Ok? { ReservationCovers(q, b, current, r.value); }
    case QueueEvent(source, recipient, operation, accepting, current, id) =>
      var r := Enqueue(q, source, recipient, operation, accepting, current, id);
      if r.Enqueued? { EnqueueKeeps(q, source, recipient, operation, accepting, current, id); }
    case ReleaseEvent(b) =>
      var r := Release(q.slots, b);
      if r.Ok? { ReleaseKeeps(q, b, r.value); }
    case DispatchEvent(i, state, turn, session) =>
      if i < |q.deliveries| { DispatchKeeps(q, i, q.deliveries[i].(state := state, turn := turn, session := session)); }
  }

  /** Everything a stored record says of its slots. */
  predicate StoredOk(q: Queue) {
    SlotsOk(q) && Decodes(q.slots)
  }

  lemma StepKeeps(q: Queue, e: Event)
    requires StoredOk(q) && Admissible(q, e)
    ensures StoredOk(After(q, e))
  {
    hide SlotsOk, Decodes, Draft, Admissible;
    DraftKeeps(q, e);
  }

  predicate Run(qs: seq<Queue>, es: seq<Event>) {
    |qs| == |es| + 1 && qs[0] == Queue([], []) && forall k :: 0 <= k < |es| ==> Admissible(qs[k], es[k]) && qs[k + 1] == After(qs[k], es[k])
  }

  /** In every order of reservations, deliveries, releases and dispatches the capacity holds, every consumed slot matches
      a retained delivery, and an operation has one digest. */
  lemma {:induction false} SlotsAlwaysOk(qs: seq<Queue>, es: seq<Event>, k: nat)
    requires Run(qs, es) && k < |qs|
    ensures StoredOk(qs[k])
  {
    hide StoredOk, After, Admissible;
    if k == 0 { EmptyOk(); } else {
      SlotsAlwaysOk(qs, es, k - 1);
      StepKeeps(qs[k - 1], es[k - 1]);
    }
  }

  lemma EmptyOk()
    ensures StoredOk(Queue([], []))
  {
  }

  // ---------- two digests ----------

  lemma FirstSlot(b: Bundle, source: SlotSource)
    ensures ReserveOne([], 0, b, source) == Ok([SlotFor(b, source)])
    ensures CountReserved([SlotFor(b, source)]) == 1
  {
    CountAppend([], SlotFor(b, source));
    assert [] + [SlotFor(b, source)] == [SlotFor(b, source)];
  }

  lemma SecondSlot(slot: Slot, b: Bundle, other: SlotSource)
    requires slot.operationKey == b.operationKey && slot.workId != other.workId && CountReserved([slot]) == 1
    ensures ReserveOne([slot], 0, b, other) == Ok([slot] + [SlotFor(b, other)])
  {
    assert SlotIndex([slot], b.operationKey, other.workId) == 1;
  }

  lemma OneSource(slots: seq<Slot>, b: Bundle, source: SlotSource)
    requires b.sources == [source] && !OtherOperation(slots, b)
    ensures Reserve(slots, 0, b, true) == ReserveOne(slots, 0, b, source)
  {
    assert ReserveUpTo(slots, 0, b, 0) == Ok(slots);
  }

  /** It can fail: repeated with another digest and another source, an operation gets its slot in the draft, which then
      carries two digests; the store refuses the write, so the operation is refused late and the record stays as it was. */
  lemma DigestCanConflict(b: Bundle, source: SlotSource, other: SlotSource, digest: string)
    requires b.sources == [source] && source.workId != other.workId && digest != b.requestDigest
    ensures var q := Queue([], [SlotFor(b, source)]);
            var again := b.(requestDigest := digest, sources := [other]);
            Run([Queue([], []), q, q], [ReserveEvent(b, true), ReserveEvent(again, true)]) &&
            Reserve(q.slots, 0, again, true) == Ok(q.slots + [SlotFor(again, other)]) && !OneDigest(q.slots + [SlotFor(again, other)])
  {
    hide ReserveOne, CountReserved;
    var slot := SlotFor(b, source);
    var q := Queue([], [slot]);
    var again := b.(requestDigest := digest, sources := [other]);
    OneSource([], b, source);
    FirstSlot(b, source);
    OneSource([slot], again, other);
    SecondSlot(slot, again, other);
    var next := [slot] + [SlotFor(again, other)];
    assert next[0].operationKey == next[1].operationKey && next[0].requestDigest != next[1].requestDigest;
    assert After(Queue([], []), ReserveEvent(b, true)) == q && After(q, ReserveEvent(again, true)) == q;
  }
}
