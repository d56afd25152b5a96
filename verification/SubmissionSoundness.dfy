/** Every accepted submission keeps the lifecycle and is an allowed step. */
module SubmissionSoundness {
  import opened ControlTypes
  import opened Records
  import opened Publications
  import opened Submissions
  import opened Lifecycle
  import opened LifecycleSteps
  import T = Transition

  predicate LifecycleOf(s: Control) {
    LifecycleOk(s.announcements, s.bindings, s.events)
  }

  /** A submission publishes one event, moves the version forward, keeps the lifecycle and changes what its kind allows. */
  predicate SubmissionSound(s: Control, p: Publication, owner: ParentId, key: Key) {
    p.Submitting? && p.event.owner == owner && p.event.key == key && p.event.revision == s.revision + 1 &&
    p.schema == SubmissionSchema(s.schema) && LifecycleOf(Publish(s, p)) && T.SubmissionAllowed(s, Publish(s, p), p.event)
  }

  lemma RequestFree(bs: seq<Binding>, owner: ParentId, requestKey: string)
    requires !RequestKeyHeld(bs, owner, requestKey)
    ensures forall j :: 0 <= j < |bs| && bs[j].owner == owner && bs[j].state != Released ==> bs[j].requestKey != requestKey
  {
  }

  /** What an accepted decision says about the announcement it names. */
  lemma DecidedAnnouncement(s: Control, owner: ParentId, input: SubmissionInput)
    requires input.BindInput? && SubmissionDecision(s, owner, input).Ok? && input.announcement.Some?
    ensures var i := AnnouncementIndex(s.announcements, input.announcement.value.id);
            i < |s.announcements| && s.announcements[i].owner == owner && s.announcements[i].state == Unresolved &&
            input.announcement == Some(AnnouncementRef(s.announcements[i].id, s.announcements[i].revision))
  {
    hide VisibleOverlaps;
  }

  lemma UniqueOf(s: Control)
    requires LifecycleOf(s)
    ensures UniqueAnnouncements(s.announcements) && UniqueBindings(s.bindings)
  {
    hide UniqueAnnouncements, UniqueBindings;
  }

  lemma OneAdvances(xs: seq<Announcement>, m: nat, a: Announcement, keepTask: bool, taskId: Option<Id>)
    requires UniqueAnnouncements(xs) && m < |xs|
    requires a == xs[m].(revision := xs[m].revision + 1, state := a.state, taskId := if keepTask then xs[m].taskId else taskId)
    ensures T.AnnouncementAdvances(xs, xs[m := a], xs[m].id, a.state, keepTask, taskId)
  {
  }

  lemma OneBecomes(bs: seq<Binding>, i: nat, b: Binding)
    requires UniqueBindings(bs) && i < |bs| && b == bs[i].(state := b.state, terminal := b.terminal)
    ensures T.BindingBecomes(bs, bs[i := b], bs[i].taskId, b.state, b.terminal)
  {
  }

  lemma BindSound(s: Control, owner: ParentId, key: Key, input: SubmissionInput, p: Publication)
    requires LifecycleOf(s) && input.BindInput? && Bind(s, owner, key, input) == Ok(p)
    ensures SubmissionSound(s, p, owner, key)
  {
    hide LifecycleOk, UniqueAnnouncements, UniqueBindings, T.AnnouncementAdvances, T.AnnounceAllowed, T.WithdrawAllowed, T.DisposeAllowed,
         T.TerminalAllowed, SubmissionDecision, RequestKeyHeld;
    UniqueOf(s);
    RequestFree(s.bindings, owner, input.requestKey);
    var m := if input.announcement.None? then 0 else AnnouncementIndex(s.announcements, input.announcement.value.id);
    if input.announcement.Some? {
      DecidedAnnouncement(s, owner, input);
      OneAdvances(s.announcements, m, p.announcements[m], false, Some(input.taskId));
    }
    BindKeeps(s.announcements, p.announcements, s.bindings, s.events, m, T.Last(p.bindings), p.event);
  }

  /** A disposition moves one binding, and the announcement it is for. */
  lemma DisposeSound(s: Control, owner: ParentId, key: Key, input: SubmissionInput, p: Publication)
    requires LifecycleOf(s) && (input.SettleInput? || input.ReleaseInput?) && Dispose(s, owner, key, input) == Ok(p)
    ensures SubmissionSound(s, p, owner, key)
  {
    hide LifecycleOk, UniqueAnnouncements, UniqueBindings, T.AnnouncementAdvances, T.BindingBecomes, T.AnnounceAllowed, T.WithdrawAllowed,
         T.BindAllowed, T.TerminalAllowed;
    UniqueOf(s);
    var i := BindingIndex(s.bindings, input.taskId);
    var b := p.bindings[i];
    OneBecomes(s.bindings, i, b);
    var m := if b.announcement.None? then 0 else AnnouncementIndex(s.announcements, b.announcement.value.id);
    if b.announcement.Some? { OneAdvances(s.announcements, m, p.announcements[m], input.SettleInput?, None); }
    MoveKeeps(s.announcements, p.announcements, s.bindings, s.events, i, b, m, p.event);
  }

  /** Every accepted submission is sound. */
  lemma SubmitSound(s: Control, owner: ParentId, key: Key, input: SubmissionInput, p: Publication)
    requires LifecycleOf(s) && Submit(s, owner, key, input) == Ok(p)
    ensures SubmissionSound(s, p, owner, key)
  {
    hide LifecycleOk, UniqueAnnouncements, UniqueBindings, T.AnnouncementAdvances, T.BindingBecomes, Bind, Dispose, T.BindAllowed, T.DisposeAllowed;
    UniqueOf(s);
    match input
    case AnnounceInput(_, _, _, _, _, _) =>
      AnnounceKeeps(s.announcements, s.bindings, s.events, T.Last(p.announcements), p.event);
    case WithdrawInput(_, _) =>
      var m := AnnouncementIndex(s.announcements, input.id);
      OneAdvances(s.announcements, m, p.announcements[m], true, None);
      WithdrawKeeps(s.announcements, s.bindings, s.events, m, p.announcements[m], p.event);
    case BindInput(_, _, _, _, _, _, _, _, _, _) =>
      BindSound(s, owner, key, input, p);
    case TerminalInput(_, _, _, _) =>
      var i := BindingIndex(s.bindings, input.taskId);
      OneBecomes(s.bindings, i, p.bindings[i]);
      MoveKeeps(s.announcements, s.announcements, s.bindings, s.events, i, p.bindings[i], 0, p.event);
      BindingAfterUpdate(s.bindings, i, p.bindings[i], input.taskId);
    case _ => DisposeSound(s, owner, key, input, p);
  }
}
