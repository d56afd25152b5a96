/** What a gated submission is promised: it is bound only while everything it was shown still stands. */
module Preflight {
  import opened ControlTypes
  import opened Records
  import opened Publications
  import opened Submissions
  import opened Invariant
  import Lifecycle

  // ---------- overlapping areas ----------

  predicate Meets(area: Region, others: seq<Region>) {
    exists k :: 0 <= k < |others| && Overlaps(area, others[k])
  }

  lemma {:induction false} SharedExactly(areas: seq<Region>, others: seq<Region>)
    ensures forall a :: a in SharedAreas(areas, others) <==> a in areas && Meets(a, others)
  {
    if areas != [] { SharedExactly(areas[1..], others); }
  }

  /** The caller is shown a work exactly when it is active, readable to the caller and shares an area. */
  lemma WorkIsShown(s: Control, owner: ParentId, areas: seq<Region>, announcement: Option<AnnouncementRef>, i: nat)
    requires UniqueWorks(s.works) && i < |s.works|
    ensures var w := s.works[i];
            (exists o :: o in VisibleOverlaps(s, owner, areas, announcement) && o.kind == WorkOverlap && o.id == w.id) <==>
            w.state == Active && CanReadSelectedWork(s.cases, owner, w) && exists a :: a in w.areas && Meets(a, areas)
  {
    hide CanReadSelectedWork, BindingDisclosed, ReadsAnnouncement;
    var w := s.works[i];
    SharedExactly(w.areas, areas);
    if o :| o in VisibleOverlaps(s, owner, areas, announcement) && o.kind == WorkOverlap && o.id == w.id {
      var j :| 0 <= j < |s.works| && s.works[j].state == Active && CanReadSelectedWork(s.cases, owner, s.works[j]) &&
               SharedAreas(s.works[j].areas, areas) != [] &&
               o == Overlap(WorkOverlap, s.works[j].id, s.works[j].revision, SharedAreas(s.works[j].areas, areas));
      assert j == i;
      assert SharedAreas(w.areas, areas)[0] in SharedAreas(w.areas, areas);
    }
    if w.state == Active && CanReadSelectedWork(s.cases, owner, w) && exists a :: a in w.areas && Meets(a, areas) {
      var a :| a in w.areas && Meets(a, areas);
      assert a in SharedAreas(w.areas, areas);
      assert Overlap(WorkOverlap, w.id, w.revision, SharedAreas(w.areas, areas)) in VisibleOverlaps(s, owner, areas, announcement);
    }
  }

  // ---------- the gate ----------

  /** A readable, active work and the areas it shares with the submission. */
  predicate Shown(s: Control, owner: ParentId, areas: seq<Region>, id: Id, revision: nat, shared: seq<Region>) {
    exists i :: 0 <= i < |s.works| && s.works[i].state == Active && CanReadSelectedWork(s.cases, owner, s.works[i]) &&
      shared != [] && s.works[i].id == id && s.works[i].revision == revision && SharedAreas(s.works[i].areas, areas) == shared
  }

  lemma ShownInDecision(s: Control, owner: ParentId, areas: seq<Region>, announcement: Option<AnnouncementRef>, id: Id, revision: nat, shared: seq<Region>)
    ensures Shown(s, owner, areas, id, revision, shared) <==>
            Overlap(WorkOverlap, id, revision, shared) in VisibleOverlaps(s, owner, areas, announcement)
  {
    hide CanReadSelectedWork, BindingDisclosed, ReadsAnnouncement, SharedAreas;
  }

  /** A gated submission is bound only if the works it overlaps, as far as its owner may read them, are the ones its
      preflight named, at the same revisions and in the same areas: nothing appeared, changed or went away between. */
  lemma GatedBindSawEverything(before: Control, s: Control, owner: ParentId, key: Key, input: SubmissionInput, decision: Decision,
                               id: Id, revision: nat, shared: seq<Region>)
    requires input.BindInput? && SubmissionDecision(before, owner, input) == Ok(decision)
    requires Bind(s, owner, key, input.(expectedDecision := Some(decision))).Ok?
    ensures Shown(before, owner, input.areas, id, revision, shared) <==> Shown(s, owner, input.areas, id, revision, shared)
  {
    hide VisibleOverlaps, Shown;
    ShownInDecision(before, owner, input.areas, input.announcement, id, revision, shared);
    ShownInDecision(s, owner, input.areas, input.announcement, id, revision, shared);
    GateCompares(before, s, owner, key, input, decision);
  }

  lemma GateCompares(before: Control, s: Control, owner: ParentId, key: Key, input: SubmissionInput, decision: Decision)
    requires input.BindInput? && SubmissionDecision(before, owner, input) == Ok(decision)
    requires Bind(s, owner, key, input.(expectedDecision := Some(decision))).Ok?
    ensures VisibleOverlaps(before, owner, input.areas, input.announcement) == VisibleOverlaps(s, owner, input.areas, input.announcement)
  {
    hide VisibleOverlaps;
  }

  // ---------- what a binding and its announcement say ----------

  /** A binding to an announcement is for exactly the announced assignment, at the announcement's current revision, and
      takes it: no second task can be bound to it. */
  lemma BoundToItsAnnouncement(s: Control, owner: ParentId, key: Key, input: SubmissionInput, p: Publication,
                               other: ParentId, laterKey: Key, again: SubmissionInput)
    requires input.BindInput? && input.announcement.Some? && Bind(s, owner, key, input) == Ok(p)
    requires Lifecycle.UniqueAnnouncements(s.announcements)
    requires again.BindInput? && again.announcement.Some? && again.announcement.value.id == input.announcement.value.id
    ensures p.Submitting? && |p.bindings| == |s.bindings| + 1
    ensures exists i :: 0 <= i < |s.announcements| && s.announcements[i].id == input.announcement.value.id && s.announcements[i].owner == owner &&
              s.announcements[i].revision == input.announcement.value.revision && s.announcements[i].state == Unresolved &&
              Some(s.announcements[i].payloadDigest) == input.announcedPayload && s.announcements[i].sourceView == input.sourceView &&
              Some(s.announcements[i].assignmentHash) == input.announcedAssignment && s.announcements[i].areas == input.areas
    ensures Bind(Publish(s, p), other, laterKey, again).Err?
  {
    hide VisibleOverlaps, RequestKeyHeld;
    var i := AnnouncementIndex(s.announcements, input.announcement.value.id);
    assert i < |s.announcements|;
    var t := Publish(s, p);
    TakenIsHeld(s.announcements, i, t.announcements[i]);
  }

  lemma TakenIsHeld(xs: seq<Announcement>, i: nat, a: Announcement)
    requires i < |xs| && a.id == xs[i].id && AnnouncementIndex(xs, xs[i].id) == i
    ensures AnnouncementIndex(xs[i := a], xs[i].id) == i
  {
    var ys := xs[i := a];
    assert ys[i].id == xs[i].id;
    assert forall j :: 0 <= j < i ==> ys[j] == xs[j];
  }

  /** An announcement says exactly what was submitted, is read by its owner and its listed readers only, and its identity
      is never announced or bound again. */
  lemma AnnouncementSays(s: Control, owner: ParentId, key: Key, input: SubmissionInput, p: Publication,
                         other: ParentId, laterKey: Key, again: SubmissionInput)
    requires input.AnnounceInput? && Announce(s, owner, key, input) == Ok(p)
    requires again.AnnounceInput? && again.id == input.id
    ensures p.Submitting? && |p.announcements| == |s.announcements| + 1 && p.announcements[..|s.announcements|] == s.announcements
    ensures var a := p.announcements[|s.announcements|];
            a.payloadDigest == input.payloadDigest && a.sourceView == input.sourceView && a.assignmentHash == input.assignmentHash &&
            a.areas == input.areas && forall x :: ReadsAnnouncement(x, a) <==> x == owner || x in input.readers
    ensures !HasBinding(s.bindings, input.id) && Announce(Publish(s, p), other, laterKey, again).Err?
  {
    var t := Publish(s, p);
    assert t.announcements[|s.announcements|].id == input.id;
  }

}
