/** Announcements and the bindings that link an admitted task to one of them.  Each accepted
    operation appends exactly one submission event. */
module Submissions {
  import opened ControlTypes
  import opened Records
  import opened Publications

  /** Storage that predates submissions is upgraded by the first one. */
  function SubmissionSchema(schema: nat): nat {
    if schema >= SUBMISSION_SCHEMA then schema else SUBMISSION_SCHEMA
  }

  function Appended(s: Control, announcements: seq<Announcement>, bindings: seq<Binding>, kind: EventKind,
                    owner: ParentId, key: Key, itemId: Id, input: SubmissionInput): Publication {
    Submitting(announcements, bindings, SubmissionSchema(s.schema),
               Event(kind, owner, key, itemId, SubmissionRequest(owner, key, input), s.revision + 1))
  }

  // ---------- the overlap decision a gated submission must name ----------

  predicate Overlaps(a: Region, b: Region) {
    a.path == b.path ||
    (a.kind == SubtreeRegion && a.path + "/" <= b.path) ||
    (b.kind == SubtreeRegion && b.path + "/" <= a.path)
  }

  function SharedAreas(areas: seq<Region>, others: seq<Region>): seq<Region> {
    if areas == [] then []
    else (if exists k :: 0 <= k < |others| && Overlaps(areas[0], others[k]) then [areas[0]] else []) + SharedAreas(areas[1..], others)
  }

  predicate ReadsAnnouncement(owner: ParentId, a: Announcement) {
    a.owner == owner || owner in a.readers
  }

  predicate CoveredByWork(s: Control, owner: ParentId, b: Binding) {
    exists i :: 0 <= i < |s.works| && s.works[i].managed.Some? && s.works[i].managed.value.taskId == b.taskId &&
      CanReadSelectedWork(s.cases, owner, s.works[i])
  }

  predicate BindingDisclosed(s: Control, owner: ParentId, b: Binding) {
    (b.state == Bound || b.state == Settled) &&
    (b.owner == owner || (b.announcement.Some? && HasAnnouncement(s.announcements, b.announcement.value.id) &&
      owner in s.announcements[AnnouncementIndex(s.announcements, b.announcement.value.id)].readers)) &&
    !CoveredByWork(s, owner, b)
  }

  function VisibleOverlaps(s: Control, owner: ParentId, areas: seq<Region>, announcement: Option<AnnouncementRef>): set<Overlap> {
    (set i | 0 <= i < |s.works| && s.works[i].state == Active && CanReadSelectedWork(s.cases, owner, s.works[i]) &&
             SharedAreas(s.works[i].areas, areas) != [] ::
       Overlap(WorkOverlap, s.works[i].id, s.works[i].revision, SharedAreas(s.works[i].areas, areas))) +
    (set i | 0 <= i < |s.announcements| && s.announcements[i].state == Unresolved &&
             (announcement.None? || s.announcements[i].id != announcement.value.id) &&
             ReadsAnnouncement(owner, s.announcements[i]) && SharedAreas(s.announcements[i].areas, areas) != [] ::
       Overlap(AnnouncementOverlap, s.announcements[i].id, s.announcements[i].revision, SharedAreas(s.announcements[i].areas, areas))) +
    (set i | 0 <= i < |s.bindings| && BindingDisclosed(s, owner, s.bindings[i]) && SharedAreas(s.bindings[i].areas, areas) != [] ::
       Overlap(BindingOverlap, s.bindings[i].taskId,
               if s.bindings[i].announcement.Some? then s.bindings[i].announcement.value.revision else 0,
               SharedAreas(s.bindings[i].areas, areas)))
  }

  function SubmissionDecision(s: Control, owner: ParentId, input: SubmissionInput): Result<Decision>
    requires input.BindInput?
  {
    if input.announcement.Some? && !HasAnnouncement(s.announcements, input.announcement.value.id) then Err(NotFound)
    else if input.announcement.Some? &&
            s.announcements[AnnouncementIndex(s.announcements, input.announcement.value.id)].owner != owner then Err(NotFound)
    else if input.announcement.Some? &&
            !ReferenceCurrent(s.announcements[AnnouncementIndex(s.announcements, input.announcement.value.id)], input) then Err(Changed)
    else Ok(Decision(owner, input.sourceView, input.inputOid, input.intentHash, input.areas, input.announcement,
                     VisibleOverlaps(s, owner, input.areas, input.announcement)))
  }

  predicate ReferenceCurrent(a: Announcement, input: SubmissionInput)
    requires input.BindInput? && input.announcement.Some?
  {
    a.revision == input.announcement.value.revision && a.state == Unresolved &&
    a.sourceView == input.sourceView && a.areas == input.areas
  }

  // ---------- the six operations, once their key is known to be fresh ----------

  function Announce(s: Control, owner: ParentId, key: Key, input: SubmissionInput): Result<Publication>
    requires input.AnnounceInput?
  {
    if owner in input.readers then Err(Invalid)
    else if HasAnnouncement(s.announcements, input.id) || HasBinding(s.bindings, input.id) then Err(AnnouncementExists)
    else
      var item := Announcement(input.id, owner, 1, Unresolved, input.payloadDigest, input.sourceView,
                               input.assignmentHash, input.areas, input.readers, None);
      Ok(Appended(s, s.announcements + [item], s.bindings, Announced, owner, key, input.id, input))
  }

  function WithdrawAnnouncement(s: Control, owner: ParentId, key: Key, input: SubmissionInput): Result<Publication>
    requires input.WithdrawInput?
  {
    var i := AnnouncementIndex(s.announcements, input.id);
    if i == |s.announcements| || s.announcements[i].owner != owner then Err(NotFound)
    else if s.announcements[i].revision != input.expectedRevision then Err(StaleRevision)
    else if s.announcements[i].state != Unresolved then Err(AnnouncementHeld)
    else
      var item := s.announcements[i].(state := Withdrawn, revision := s.announcements[i].revision + 1);
      Ok(Appended(s, s.announcements[i := item], s.bindings, AnnouncementWithdrawn, owner, key, input.id, input))
  }

  predicate RequestKeyHeld(bs: seq<Binding>, owner: ParentId, requestKey: string) {
    exists i :: 0 <= i < |bs| && bs[i].owner == owner && bs[i].requestKey == requestKey && bs[i].state != Released
  }

  function Bind(s: Control, owner: ParentId, key: Key, input: SubmissionInput): Result<Publication>
    requires input.BindInput?
  {
    if HasBinding(s.bindings, input.taskId) || RequestKeyHeld(s.bindings, owner, input.requestKey) then Err(BindingConflict)
    else
      var decision :- SubmissionDecision(s, owner, input);
      if input.expectedDecision.Some? && input.expectedDecision.value != decision then Err(Changed)
      else
        var link := Link(input.taskId, input.requestKey, owner, input.intentHash, decision, input.announcement);
        var item := Binding(input.taskId, input.requestKey, owner, link, input.sourceView, input.inputOid,
                            input.areas, input.announcement, Bound, None);
        if input.announcement.None? then
          Ok(Appended(s, s.announcements, s.bindings + [item], BindEvent, owner, key, input.taskId, input))
        else
          var i := AnnouncementIndex(s.announcements, input.announcement.value.id);
          if Some(s.announcements[i].payloadDigest) != input.announcedPayload ||
             Some(s.announcements[i].assignmentHash) != input.announcedAssignment then Err(BindingConflict)
          else
            var a := s.announcements[i].(state := AnnouncementBound, taskId := Some(input.taskId),
                                         revision := s.announcements[i].revision + 1);
            Ok(Appended(s, s.announcements[i := a], s.bindings + [item], BindEvent, owner, key, input.taskId, input))
  }

  /** The binding a disposition names, if task, request key and link identify exactly one. */
  function NamedBinding(s: Control, owner: ParentId, taskId: Id, requestKey: string, link: Link): (r: Result<nat>)
    ensures r.Ok? ==> r.value < |s.bindings| && r.value == BindingIndex(s.bindings, taskId) &&
                      s.bindings[r.value].owner == owner && s.bindings[r.value].requestKey == requestKey
  {
    var i := BindingIndex(s.bindings, taskId);
    if i == |s.bindings| || s.bindings[i].owner != owner then Err(NotFound)
    else if s.bindings[i].requestKey != requestKey || s.bindings[i].link != link then Err(BindingConflict)
    else Ok(i)
  }

  predicate HoldsTask(s: Control, owner: ParentId, b: Binding)
    requires b.announcement.Some?
  {
    HasAnnouncement(s.announcements, b.announcement.value.id) &&
    var a := s.announcements[AnnouncementIndex(s.announcements, b.announcement.value.id)];
    a.owner == owner && a.taskId == Some(b.taskId) && a.state == AnnouncementBound
  }

  /** Settling links the announcement for good; releasing returns it to its author. */
  function Dispose(s: Control, owner: ParentId, key: Key, input: SubmissionInput): Result<Publication>
    requires input.SettleInput? || input.ReleaseInput?
  {
    var i :- NamedBinding(s, owner, input.taskId, input.requestKey, input.link);
    var b := s.bindings[i];
    var kind := if input.SettleInput? then SettleEvent else ReleaseEvent;
    var changed := s.bindings[i := b.(state := if input.SettleInput? then Settled else Released)];
    if b.state != Bound then Err(BindingSettled)
    else if b.announcement.None? then Ok(Appended(s, s.announcements, changed, kind, owner, key, input.taskId, input))
    else if !HoldsTask(s, owner, b) then Err(BindingConflict)
    else
      var k := AnnouncementIndex(s.announcements, b.announcement.value.id);
      var a := s.announcements[k];
      var a' := if input.SettleInput? then a.(state := Linked, revision := a.revision + 1)
                else a.(state := Unresolved, taskId := None, revision := a.revision + 1);
      Ok(Appended(s, s.announcements[k := a'], changed, kind, owner, key, input.taskId, input))
  }

  function Terminate(s: Control, owner: ParentId, key: Key, input: SubmissionInput): Result<Publication>
    requires input.TerminalInput?
  {
    var i :- NamedBinding(s, owner, input.taskId, input.requestKey, input.link);
    if s.bindings[i].state != Settled then Err(BindingSettled)
    else
      var b := s.bindings[i].(state := Ended, terminal := Some(input.terminal));
      Ok(Appended(s, s.announcements, s.bindings[i := b], TerminalEvent, owner, key, input.taskId, input))
  }

  function Submit(s: Control, owner: ParentId, key: Key, input: SubmissionInput): Result<Publication> {
    match input
    case AnnounceInput(_, _, _, _, _, _) => Announce(s, owner, key, input)
    case WithdrawInput(_, _) => WithdrawAnnouncement(s, owner, key, input)
    case BindInput(_, _, _, _, _, _, _, _, _, _) => Bind(s, owner, key, input)
    case SettleInput(_, _, _) => Dispose(s, owner, key, input)
    case ReleaseInput(_, _, _) => Dispose(s, owner, key, input)
    case TerminalInput(_, _, _, _) => Terminate(s, owner, key, input)
  }
}
