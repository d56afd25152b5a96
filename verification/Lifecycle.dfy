/** The submission lifecycle read off its event history: an announcement's revision counts the events
    about it, it is held exactly while its one live binding holds it, and each binding's state is the
    one its ordered history spells. */
module Lifecycle {
  import opened ControlTypes
  import opened Records

  // ---------- what the events say ----------

  predicate AboutAnnouncement(k: EventKind) { k == Announced || k == AnnouncementWithdrawn }

  /** The events of one binding, in order. */
  function HistoryOf(es: seq<Event>, taskId: Id): seq<Event> {
    if es == [] then []
    else
      var last := es[|es| - 1];
      HistoryOf(es[..|es| - 1], taskId) + (if last.itemId == taskId && !AboutAnnouncement(last.kind) then [last] else [])
  }

  function Spelling(state: BindingState): seq<EventKind> {
    match state
    case Bound => [BindEvent]
    case Settled => [BindEvent, SettleEvent]
    case Released => [BindEvent, ReleaseEvent]
    case Ended => [BindEvent, SettleEvent, TerminalEvent]
  }

  predicate Spells(history: seq<Event>, owner: ParentId, kinds: seq<EventKind>) {
    |history| == |kinds| && forall i :: 0 <= i < |kinds| ==> history[i].kind == kinds[i] && history[i].owner == owner
  }

  /** The announcement a task's binding refers to. */
  function RefOf(bs: seq<Binding>, taskId: Id): Option<Id> {
    if HasBinding(bs, taskId) && bs[BindingIndex(bs, taskId)].announcement.Some?
    then Some(bs[BindingIndex(bs, taskId)].announcement.value.id) else None
  }

  /** An event that advances the announcement's revision. */
  predicate Touches(e: Event, bs: seq<Binding>, id: Id) {
    if AboutAnnouncement(e.kind) then e.itemId == id
    else e.kind != TerminalEvent && RefOf(bs, e.itemId) == Some(id)
  }

  function Changes(es: seq<Event>, bs: seq<Binding>, id: Id): (n: nat)
    ensures n <= |es|
  {
    if es == [] then 0
    else Changes(es[..|es| - 1], bs, id) + (if Touches(es[|es| - 1], bs, id) then 1 else 0)
  }

  // ---------- the invariant ----------

  predicate UniqueAnnouncements(xs: seq<Announcement>) {
    forall i, j :: 0 <= i < j < |xs| ==> xs[i].id != xs[j].id
  }

  predicate UniqueBindings(bs: seq<Binding>) {
    forall i, j :: 0 <= i < j < |bs| ==> bs[i].taskId != bs[j].taskId
  }

  /** An owner's request key has at most one binding that was not released. */
  predicate UniqueRequests(bs: seq<Binding>) {
    forall i, j :: 0 <= i < j < |bs| && bs[i].state != Released && bs[j].state != Released && bs[i].owner == bs[j].owner ==>
      bs[i].requestKey != bs[j].requestKey
  }

  predicate Live(b: Binding, id: Id) {
    b.state != Released && b.announcement.Some? && b.announcement.value.id == id
  }

  predicate NoLive(bs: seq<Binding>, id: Id) {
    forall j :: 0 <= j < |bs| ==> !Live(bs[j], id)
  }

  /** `taskId` names the one live binding of the announcement, and its state is the announcement's. */
  predicate HeldBy(bs: seq<Binding>, a: Announcement, taskId: Id) {
    HasBinding(bs, taskId) &&
    var b := bs[BindingIndex(bs, taskId)];
    Live(b, a.id) && b.owner == a.owner && b.announcement.value.revision < a.revision &&
    (if a.state == AnnouncementBound then b.state == Bound else b.state == Settled || b.state == Ended) &&
    forall j :: 0 <= j < |bs| && Live(bs[j], a.id) ==> bs[j].taskId == taskId
  }

  predicate Holding(bs: seq<Binding>, a: Announcement) {
    if a.state == AnnouncementBound || a.state == Linked then a.taskId.Some? && HeldBy(bs, a, a.taskId.value)
    else a.taskId.None? && NoLive(bs, a.id)
  }

  predicate Begun(es: seq<Event>, id: Id) {
    exists i :: 0 <= i < |es| && es[i].kind == Announced && es[i].itemId == id
  }

  predicate AnnouncementOk(bs: seq<Binding>, es: seq<Event>, a: Announcement) {
    Begun(es, a.id) && a.revision == Changes(es, bs, a.id) && Holding(bs, a)
  }

  predicate RefersOwn(xs: seq<Announcement>, b: Binding) {
    b.announcement.Some? ==>
      HasAnnouncement(xs, b.announcement.value.id) && xs[AnnouncementIndex(xs, b.announcement.value.id)].owner == b.owner
  }

  predicate BindingOk(xs: seq<Announcement>, es: seq<Event>, b: Binding) {
    Spells(HistoryOf(es, b.taskId), b.owner, Spelling(b.state)) && RefersOwn(xs, b)
  }

  predicate EventOk(xs: seq<Announcement>, bs: seq<Binding>, e: Event) {
    if AboutAnnouncement(e.kind) then HasAnnouncement(xs, e.itemId) else HasBinding(bs, e.itemId)
  }

  predicate LifecycleOk(xs: seq<Announcement>, bs: seq<Binding>, es: seq<Event>) {
    UniqueAnnouncements(xs) && UniqueBindings(bs) && UniqueRequests(bs) &&
    (forall i :: 0 <= i < |xs| ==> AnnouncementOk(bs, es, xs[i])) &&
    (forall i :: 0 <= i < |bs| ==> BindingOk(xs, es, bs[i])) &&
    (forall i :: 0 <= i < |es| ==> EventOk(xs, bs, es[i]))
  }

  // ---------- one more event ----------

  lemma HistoryGrows(es: seq<Event>, e: Event, taskId: Id)
    ensures HistoryOf(es + [e], taskId) == HistoryOf(es, taskId) + (if e.itemId == taskId && !AboutAnnouncement(e.kind) then [e] else [])
  {
    assert (es + [e])[..|es|] == es;
  }

  lemma ChangesGrow(es: seq<Event>, e: Event, bs: seq<Binding>, id: Id)
    ensures Changes(es + [e], bs, id) == Changes(es, bs, id) + (if Touches(e, bs, id) then 1 else 0)
  {
    assert (es + [e])[..|es|] == es;
  }

  /** Bindings already present keep the announcement they refer to. */
  ghost predicate KeepsRefs(bs: seq<Binding>, next: seq<Binding>) {
    forall t: Id :: HasBinding(bs, t) ==> HasBinding(next, t) && RefOf(next, t) == RefOf(bs, t)
  }

  lemma {:induction false} ChangesStable(xs: seq<Announcement>, bs: seq<Binding>, next: seq<Binding>, es: seq<Event>, id: Id)
    requires KeepsRefs(bs, next)
    requires forall i :: 0 <= i < |es| ==> EventOk(xs, bs, es[i])
    ensures Changes(es, next, id) == Changes(es, bs, id)
  {
    if es != [] {
      var rest := es[..|es| - 1];
      forall i | 0 <= i < |rest| ensures EventOk(xs, bs, rest[i]) { assert rest[i] == es[i]; }
      ChangesStable(xs, bs, next, rest, id);
      assert EventOk(xs, bs, es[|es| - 1]);
    }
  }

  lemma BegunStays(es: seq<Event>, e: Event, id: Id)
    ensures Begun(es, id) ==> Begun(es + [e], id)
    ensures e.kind == Announced && e.itemId == id ==> Begun(es + [e], id)
  {
    if Begun(es, id) {
      var i :| 0 <= i < |es| && es[i].kind == Announced && es[i].itemId == id;
      assert (es + [e])[i] == es[i];
    }
    assert (es + [e])[|es|] == e;
  }

  lemma AppendKeepsRefs(bs: seq<Binding>, b: Binding)
    requires !HasBinding(bs, b.taskId)
    ensures KeepsRefs(bs, bs + [b])
  {
    forall t: Id | HasBinding(bs, t) ensures HasBinding(bs + [b], t) && RefOf(bs + [b], t) == RefOf(bs, t) {
      BindingAfterAppend(bs, b, t);
    }
  }

  lemma BindingAfterAppend(bs: seq<Binding>, b: Binding, t: Id)
    requires HasBinding(bs, t)
    ensures BindingIndex(bs + [b], t) == BindingIndex(bs, t)
  {
    var i := BindingIndex(bs, t);
    assert (bs + [b])[i] == bs[i];
    assert forall j :: 0 <= j < i ==> (bs + [b])[j] == bs[j];
  }

  lemma BindingAppended(bs: seq<Binding>, b: Binding)
    requires !HasBinding(bs, b.taskId)
    ensures HasBinding(bs + [b], b.taskId) && BindingIndex(bs + [b], b.taskId) == |bs|
  {
    assert (bs + [b])[|bs|] == b;
    assert forall j :: 0 <= j < |bs| ==> (bs + [b])[j] == bs[j] && bs[j].taskId != b.taskId;
  }

  lemma BindingAfterUpdate(bs: seq<Binding>, i: nat, b: Binding, t: Id)
    requires i < |bs| && b.taskId == bs[i].taskId
    ensures BindingIndex(bs[i := b], t) == BindingIndex(bs, t)
  {
    var next := bs[i := b];
    assert forall j :: 0 <= j < |bs| ==> next[j].taskId == bs[j].taskId;
  }

  lemma UpdateKeepsRefs(bs: seq<Binding>, i: nat, b: Binding)
    requires i < |bs| && b.taskId == bs[i].taskId && b.announcement == bs[i].announcement
    ensures KeepsRefs(bs, bs[i := b])
  {
    forall t: Id | HasBinding(bs, t) ensures HasBinding(bs[i := b], t) && RefOf(bs[i := b], t) == RefOf(bs, t) {
      BindingAfterUpdate(bs, i, b, t);
    }
  }

  lemma AnnouncementFound(xs: seq<Announcement>, i: nat)
    requires UniqueAnnouncements(xs) && i < |xs|
    ensures AnnouncementIndex(xs, xs[i].id) == i
  {
  }

  lemma BindingFound(bs: seq<Binding>, i: nat)
    requires UniqueBindings(bs) && i < |bs|
    ensures BindingIndex(bs, bs[i].taskId) == i
  {
  }

  // ---------- the announcements after a step ----------

  /** Identities and owners stay where they are. */
  predicate SameAnnouncements(xs: seq<Announcement>, next: seq<Announcement>) {
    |xs| <= |next| && forall i :: 0 <= i < |xs| ==> next[i].id == xs[i].id && next[i].owner == xs[i].owner
  }

  lemma SameFound(xs: seq<Announcement>, next: seq<Announcement>, id: Id)
    requires SameAnnouncements(xs, next) && HasAnnouncement(xs, id)
    ensures AnnouncementIndex(next, id) == AnnouncementIndex(xs, id)
  {
  }

  /** A binding the event is not about keeps its history and its announcement. */
  lemma OtherBinding(xs: seq<Announcement>, next: seq<Announcement>, es: seq<Event>, e: Event, b: Binding)
    requires BindingOk(xs, es, b) && SameAnnouncements(xs, next) && (e.itemId != b.taskId || AboutAnnouncement(e.kind))
    ensures BindingOk(next, es + [e], b)
  {
    HistoryGrows(es, e, b.taskId);
    if b.announcement.Some? { SameFound(xs, next, b.announcement.value.id); }
  }

  lemma EventsStillOk(xs: seq<Announcement>, next: seq<Announcement>, bs: seq<Binding>, bs': seq<Binding>, es: seq<Event>, e: Event)
    requires forall i :: 0 <= i < |es| ==> EventOk(xs, bs, es[i])
    requires SameAnnouncements(xs, next) && KeepsRefs(bs, bs') && EventOk(next, bs', e)
    ensures forall i :: 0 <= i < |es + [e]| ==> EventOk(next, bs', (es + [e])[i])
  {
    forall i | 0 <= i < |es + [e]| ensures EventOk(next, bs', (es + [e])[i]) {
      if i < |es| {
        assert EventOk(xs, bs, es[i]);
        if AboutAnnouncement(es[i].kind) { SameFound(xs, next, es[i].itemId); }
      }
    }
  }

  /** An announcement the event does not touch keeps its count; whether it is held depends on the bindings alone. */
  lemma OtherAnnouncement(xs: seq<Announcement>, bs: seq<Binding>, bs': seq<Binding>, es: seq<Event>, e: Event, a: Announcement)
    requires forall i :: 0 <= i < |es| ==> EventOk(xs, bs, es[i])
    requires AnnouncementOk(bs, es, a) && KeepsRefs(bs, bs') && !Touches(e, bs', a.id) && Holding(bs', a)
    ensures AnnouncementOk(bs', es + [e], a)
  {
    hide Holding, KeepsRefs, Touches, EventOk;
    BegunStays(es, e, a.id);
    ChangesStable(xs, bs, bs', es, a.id);
    ChangesGrow(es, e, bs', a.id);
  }

  /** The announcement the event touches advances by one revision. */
  lemma TouchedAnnouncement(xs: seq<Announcement>, bs: seq<Binding>, bs': seq<Binding>, es: seq<Event>, e: Event, a: Announcement, next: Announcement)
    requires forall i :: 0 <= i < |es| ==> EventOk(xs, bs, es[i])
    requires AnnouncementOk(bs, es, a) && KeepsRefs(bs, bs') && Touches(e, bs', a.id) && next.id == a.id
    requires next.revision == a.revision + 1 && Holding(bs', next)
    ensures AnnouncementOk(bs', es + [e], next)
  {
    hide Holding, KeepsRefs, Touches, EventOk;
    BegunStays(es, e, a.id);
    ChangesStable(xs, bs, bs', es, a.id);
    ChangesGrow(es, e, bs', a.id);
  }
}
