/** Each of the six submission operations keeps the lifecycle invariant. */
module LifecycleSteps {
  import opened ControlTypes
  import opened Records
  import opened Lifecycle

  lemma {:induction false} NothingYet(xs: seq<Announcement>, bs: seq<Binding>, es: seq<Event>, id: Id)
    requires forall i :: 0 <= i < |es| ==> EventOk(xs, bs, es[i])
    requires forall i :: 0 <= i < |bs| ==> RefersOwn(xs, bs[i])
    requires !HasAnnouncement(xs, id)
    ensures Changes(es, bs, id) == 0 && NoLive(bs, id)
  {
    if es != [] {
      var rest := es[..|es| - 1];
      forall i | 0 <= i < |rest| ensures EventOk(xs, bs, rest[i]) { assert rest[i] == es[i]; }
      NothingYet(xs, bs, rest, id);
      assert EventOk(xs, bs, es[|es| - 1]);
    }
    forall j | 0 <= j < |bs| ensures !Live(bs[j], id) { assert RefersOwn(xs, bs[j]); }
  }

  lemma {:induction false} NoHistoryYet(xs: seq<Announcement>, bs: seq<Binding>, es: seq<Event>, taskId: Id)
    requires forall i :: 0 <= i < |es| ==> EventOk(xs, bs, es[i])
    requires !HasBinding(bs, taskId)
    ensures HistoryOf(es, taskId) == []
  {
    if es != [] {
      var rest := es[..|es| - 1];
      forall i | 0 <= i < |rest| ensures EventOk(xs, bs, rest[i]) { assert rest[i] == es[i]; }
      NoHistoryYet(xs, bs, rest, taskId);
      assert EventOk(xs, bs, es[|es| - 1]);
    }
  }

  lemma OwnRefs(xs: seq<Announcement>, bs: seq<Binding>, es: seq<Event>)
    requires LifecycleOk(xs, bs, es)
    ensures forall i :: 0 <= i < |bs| ==> RefersOwn(xs, bs[i])
  {
    forall i | 0 <= i < |bs| ensures RefersOwn(xs, bs[i]) { assert BindingOk(xs, es, bs[i]); }
  }

  lemma KeepsRefsSame(bs: seq<Binding>)
    ensures KeepsRefs(bs, bs)
  {
  }

  // ---------- announce and withdraw ----------

  lemma AnnounceKeeps(xs: seq<Announcement>, bs: seq<Binding>, es: seq<Event>, a: Announcement, e: Event)
    requires LifecycleOk(xs, bs, es) && !HasAnnouncement(xs, a.id)
    requires a.revision == 1 && a.state == Unresolved && a.taskId.None? && e.kind == Announced && e.itemId == a.id
    ensures LifecycleOk(xs + [a], bs, es + [e])
  {
    hide UniqueBindings, UniqueRequests, BindingOk, EventOk, Holding, Changes, Begun, HistoryOf;
    var next, es' := xs + [a], es + [e];
    OwnRefs(xs, bs, es);
    KeepsRefsSame(bs);
    NothingYet(xs, bs, es, a.id);
    ChangesGrow(es, e, bs, a.id);
    BegunStays(es, e, a.id);
    assert AnnouncementOk(bs, es', a) by { FreeHolding(bs, a); }
    forall i | 0 <= i < |next| ensures AnnouncementOk(bs, es', next[i]) {
      if i < |xs| { OtherAnnouncement(xs, bs, bs, es, e, xs[i]); }
    }
    forall i | 0 <= i < |bs| ensures BindingOk(next, es', bs[i]) { OtherBinding(xs, next, es, e, bs[i]); }
    LastNamed(next, |xs|);
    NewEventOk(next, bs, e);
    EventsStillOk(xs, next, bs, bs, es, e);
  }

  lemma FreeHolding(bs: seq<Binding>, a: Announcement)
    requires NoLive(bs, a.id) && a.taskId.None? && a.state != AnnouncementBound && a.state != Linked
    ensures Holding(bs, a)
  {
  }

  lemma LastNamed(xs: seq<Announcement>, i: nat)
    requires i < |xs|
    ensures HasAnnouncement(xs, xs[i].id)
  {
  }

  lemma NewEventOk(xs: seq<Announcement>, bs: seq<Binding>, e: Event)
    requires if AboutAnnouncement(e.kind) then HasAnnouncement(xs, e.itemId) else HasBinding(bs, e.itemId)
    ensures EventOk(xs, bs, e)
  {
  }

  lemma WithdrawKeeps(xs: seq<Announcement>, bs: seq<Binding>, es: seq<Event>, i: nat, a: Announcement, e: Event)
    requires LifecycleOk(xs, bs, es) && i < |xs| && xs[i].state == Unresolved
    requires a == xs[i].(state := Withdrawn, revision := xs[i].revision + 1) && e.kind == AnnouncementWithdrawn && e.itemId == a.id
    ensures LifecycleOk(xs[i := a], bs, es + [e])
  {
    hide UniqueBindings, UniqueRequests, BindingOk, EventOk, Holding, Changes, Begun, HistoryOf;
    var next, es' := xs[i := a], es + [e];
    KeepsRefsSame(bs);
    forall k | 0 <= k < |next| ensures AnnouncementOk(bs, es', next[k]) {
      if k == i {
        WithdrawnHolding(bs, xs[i], a);
        TouchedAnnouncement(xs, bs, bs, es, e, xs[i], a);
      } else {
        OtherAnnouncement(xs, bs, bs, es, e, xs[k]);
      }
    }
    forall k | 0 <= k < |bs| ensures BindingOk(next, es', bs[k]) { OtherBinding(xs, next, es, e, bs[k]); }
    LastNamed(next, i);
    NewEventOk(next, bs, e);
    EventsStillOk(xs, next, bs, bs, es, e);
  }

  lemma WithdrawnHolding(bs: seq<Binding>, was: Announcement, a: Announcement)
    requires Holding(bs, was) && was.state == Unresolved && a == was.(state := Withdrawn, revision := was.revision + 1)
    ensures Holding(bs, a)
  {
  }

  // ---------- bind ----------

  /** Whether an announcement is held does not change when a binding of something else is added. */
  lemma HoldingAfterBind(bs: seq<Binding>, b: Binding, a: Announcement)
    requires Holding(bs, a) && !HasBinding(bs, b.taskId) && !Live(b, a.id)
    ensures Holding(bs + [b], a)
  {
    if a.taskId.Some? && HasBinding(bs, a.taskId.value) { BindingAfterAppend(bs, b, a.taskId.value); }
  }

  /** The bound announcement is held by exactly the new binding. */
  lemma BoundHolding(bs: seq<Binding>, b: Binding, was: Announcement, a: Announcement)
    requires Holding(bs, was) && was.state == Unresolved && !HasBinding(bs, b.taskId)
    requires b.state == Bound && b.announcement == Some(AnnouncementRef(was.id, was.revision)) && b.owner == was.owner
    requires a == was.(state := AnnouncementBound, taskId := Some(b.taskId), revision := was.revision + 1)
    ensures Holding(bs + [b], a)
  {
    BindingAppended(bs, b);
  }

  lemma BindAddsUnique(bs: seq<Binding>, b: Binding)
    requires UniqueBindings(bs) && UniqueRequests(bs) && !HasBinding(bs, b.taskId)
    requires forall j :: 0 <= j < |bs| && bs[j].owner == b.owner && bs[j].state != Released ==> bs[j].requestKey != b.requestKey
    ensures UniqueBindings(bs + [b]) && UniqueRequests(bs + [b])
  {
  }

  lemma NewBindingOk(xs: seq<Announcement>, next: seq<Announcement>, bs: seq<Binding>, es: seq<Event>, b: Binding, e: Event)
    requires forall i :: 0 <= i < |es| ==> EventOk(xs, bs, es[i])
    requires !HasBinding(bs, b.taskId) && b.state == Bound && RefersOwn(next, b)
    requires e.kind == BindEvent && e.itemId == b.taskId && e.owner == b.owner
    ensures BindingOk(next, es + [e], b)
  {
    NoHistoryYet(xs, bs, es, b.taskId);
    HistoryGrows(es, e, b.taskId);
  }

  lemma HoldingOf(bs: seq<Binding>, es: seq<Event>, a: Announcement)
    requires AnnouncementOk(bs, es, a)
    ensures Holding(bs, a)
  {
  }

  /** The announcements after the binding: the one it is for, at `m`, is bound to the task. */
  predicate BindsTo(xs: seq<Announcement>, next: seq<Announcement>, m: nat, b: Binding) {
    if b.announcement.None? then next == xs
    else
      m < |xs| && xs[m].state == Unresolved && b.announcement == Some(AnnouncementRef(xs[m].id, xs[m].revision)) && b.owner == xs[m].owner &&
      next == xs[m := xs[m].(state := AnnouncementBound, taskId := Some(b.taskId), revision := xs[m].revision + 1)]
  }

  lemma BindKeeps(xs: seq<Announcement>, next: seq<Announcement>, bs: seq<Binding>, es: seq<Event>, m: nat, b: Binding, e: Event)
    requires LifecycleOk(xs, bs, es) && BindsTo(xs, next, m, b) && !HasBinding(bs, b.taskId) && b.state == Bound
    requires forall j :: 0 <= j < |bs| && bs[j].owner == b.owner && bs[j].state != Released ==> bs[j].requestKey != b.requestKey
    requires e.kind == BindEvent && e.itemId == b.taskId && e.owner == b.owner
    ensures LifecycleOk(next, bs + [b], es + [e])
  {
    hide UniqueBindings, UniqueRequests, BindingOk, EventOk, Holding, Changes, Begun, HistoryOf, AnnouncementOk;
    var bs', es' := bs + [b], es + [e];
    BindAddsUnique(bs, b);
    AppendKeepsRefs(bs, b);
    BindingAppended(bs, b);
    forall k | 0 <= k < |next| ensures AnnouncementOk(bs', es', next[k]) {
      HoldingOf(bs, es, xs[k]);
      if b.announcement.Some? && k == m {
        BoundHolding(bs, b, xs[m], next[m]);
        TouchedAnnouncement(xs, bs, bs', es, e, xs[m], next[m]);
      } else {
        HoldingAfterBind(bs, b, xs[k]);
        OtherAnnouncement(xs, bs, bs', es, e, xs[k]);
      }
    }
    if b.announcement.Some? {
      LastNamed(next, m);
      AnnouncementFound(next, m);
    }
    NewBindingOk(xs, next, bs, es, b, e);
    forall k | 0 <= k < |bs'| ensures BindingOk(next, es', bs'[k]) {
      if k < |bs| {
        assert bs[k].taskId != b.taskId;
        OtherBinding(xs, next, es, e, bs[k]);
      }
    }
    NewEventOk(next, bs', e);
    EventsStillOk(xs, next, bs, bs', es, e);
  }

  // ---------- settle, release and terminal evidence ----------

  /** The next state of a binding and the event that spells it. */
  predicate Moves(was: BindingState, state: BindingState, kind: EventKind) {
    (was == Bound && state == Settled && kind == SettleEvent) ||
    (was == Bound && state == Released && kind == ReleaseEvent) ||
    (was == Settled && state == Ended && kind == TerminalEvent)
  }

  predicate SameBinding(was: Binding, b: Binding) {
    b == was.(state := b.state, terminal := b.terminal)
  }

  lemma MovedBindingOk(xs: seq<Announcement>, next: seq<Announcement>, es: seq<Event>, was: Binding, b: Binding, e: Event)
    requires BindingOk(xs, es, was) && SameAnnouncements(xs, next) && SameBinding(was, b) && Moves(was.state, b.state, e.kind)
    requires e.itemId == b.taskId && e.owner == b.owner
    ensures BindingOk(next, es + [e], b)
  {
    HistoryGrows(es, e, b.taskId);
    if b.announcement.Some? { SameFound(xs, next, b.announcement.value.id); }
  }

  lemma BindingNamed(bs: seq<Binding>, i: nat)
    requires i < |bs|
    ensures HasBinding(bs, bs[i].taskId)
  {
  }

  /** A moved binding changes nothing for an announcement it does not refer to, and its end changes nothing at all. */
  lemma HoldingAfterMove(bs: seq<Binding>, i: nat, b: Binding, a: Announcement, kind: EventKind)
    requires Holding(bs, a) && UniqueBindings(bs) && i < |bs| && SameBinding(bs[i], b) && Moves(bs[i].state, b.state, kind)
    requires (b.announcement.Some? && b.announcement.value.id == a.id) ==> kind == TerminalEvent
    ensures Holding(bs[i := b], a)
  {
    var next := bs[i := b];
    if a.taskId.Some? { BindingAfterUpdate(bs, i, b, a.taskId.value); }
    BindingFound(bs, i);
    assert forall j :: 0 <= j < |bs| ==> Live(next[j], a.id) == Live(bs[j], a.id);
  }

  /** Settling links the announcement to the same task; releasing leaves it held by none. */
  lemma DisposedHolding(bs: seq<Binding>, i: nat, b: Binding, was: Announcement, a: Announcement, kind: EventKind)
    requires Holding(bs, was) && UniqueBindings(bs) && i < |bs| && SameBinding(bs[i], b) && Moves(bs[i].state, b.state, kind)
    requires kind != TerminalEvent && was.state == AnnouncementBound && was.taskId == Some(b.taskId)
    requires a == (if kind == SettleEvent then was.(state := Linked, revision := was.revision + 1)
                   else was.(state := Unresolved, taskId := None, revision := was.revision + 1))
    ensures Holding(bs[i := b], a)
  {
    var next := bs[i := b];
    BindingAfterUpdate(bs, i, b, b.taskId);
    BindingFound(bs, i);
    assert forall j :: 0 <= j < |bs| && j != i ==> next[j] == bs[j] && bs[j].taskId != b.taskId;
  }

  lemma RefAfterMove(bs: seq<Binding>, i: nat, b: Binding)
    requires UniqueBindings(bs) && i < |bs| && SameBinding(bs[i], b)
    ensures RefOf(bs[i := b], b.taskId) == (if b.announcement.Some? then Some(b.announcement.value.id) else None)
  {
    BindingAfterUpdate(bs, i, b, b.taskId);
    BindingFound(bs, i);
  }

  /** The announcements after the move: the bound one of a disposed binding, at `m`, is linked or free again. */
  predicate MovesTo(xs: seq<Announcement>, next: seq<Announcement>, m: nat, b: Binding, kind: EventKind) {
    if b.announcement.None? || kind == TerminalEvent then next == xs
    else
      m < |xs| && xs[m].id == b.announcement.value.id && xs[m].state == AnnouncementBound && xs[m].taskId == Some(b.taskId) &&
      next == xs[m := if kind == SettleEvent then xs[m].(state := Linked, revision := xs[m].revision + 1)
                      else xs[m].(state := Unresolved, taskId := None, revision := xs[m].revision + 1)]
  }

  /** A disposition, or terminal evidence. */
  lemma MoveKeeps(xs: seq<Announcement>, next: seq<Announcement>, bs: seq<Binding>, es: seq<Event>, i: nat, b: Binding, m: nat, e: Event)
    requires LifecycleOk(xs, bs, es) && i < |bs| && SameBinding(bs[i], b) && Moves(bs[i].state, b.state, e.kind) && MovesTo(xs, next, m, b, e.kind)
    requires e.itemId == b.taskId && e.owner == b.owner
    ensures LifecycleOk(next, bs[i := b], es + [e])
  {
    hide UniqueRequests, BindingOk, EventOk, Holding, Changes, Begun, HistoryOf, AnnouncementOk;
    var bs', es' := bs[i := b], es + [e];
    UpdateKeepsRefs(bs, i, b);
    RefAfterMove(bs, i, b);
    MoveKeepsUnique(bs, i, b, e.kind);
    forall k | 0 <= k < |next| ensures AnnouncementOk(bs', es', next[k]) {
      HoldingOf(bs, es, xs[k]);
      if b.announcement.Some? && e.kind != TerminalEvent && k == m {
        DisposedHolding(bs, i, b, xs[m], next[m], e.kind);
        TouchedAnnouncement(xs, bs, bs', es, e, xs[m], next[m]);
      } else {
        HoldingAfterMove(bs, i, b, xs[k], e.kind);
        OtherAnnouncement(xs, bs, bs', es, e, xs[k]);
      }
    }
    forall k | 0 <= k < |bs'| ensures BindingOk(next, es', bs'[k]) {
      if k == i { MovedBindingOk(xs, next, es, bs[i], b, e); }
      else { OtherBinding(xs, next, es, e, bs[k]); }
    }
    BindingNamed(bs', i);
    NewEventOk(next, bs', e);
    EventsStillOk(xs, next, bs, bs', es, e);
  }

  lemma MoveKeepsUnique(bs: seq<Binding>, i: nat, b: Binding, kind: EventKind)
    requires UniqueBindings(bs) && UniqueRequests(bs) && i < |bs| && SameBinding(bs[i], b) && Moves(bs[i].state, b.state, kind)
    ensures UniqueBindings(bs[i := b]) && UniqueRequests(bs[i := b])
  {
  }
}
