/** What accepted operations mean for the parties: who can read, who leads, what stays fenced off. */
module Effects {
  import opened ControlTypes
  import opened Records
  import opened Publications
  import opened Invariant
  import opened Ledger
  import opened Runs
  import opened Retained
  import ObservedCases

  /** A registration takes a free workspace under its caller, unshared beyond the listed readers, and holds it against the next. */
  lemma RegisteringMeans(s: Control, owner: ParentId, command: Command, newId: Id, w: Work, other: ParentId, again: Command, laterId: Id)
    requires command.RegisterTaskWork? || command.RegisterWork?
    requires again.RegisterTaskWork? || again.RegisterWork?
    requires Register(s, owner, command, newId) == Ok(w) && again.workspaceId == command.workspaceId
    ensures w.owner == owner && w.state == Active && w.revision == 1 && w.workspaceId == command.workspaceId && w.intent == command.intent
    ensures w.inputOid == command.inputOid && w.objectFormat == command.objectFormat && w.areas == command.areas
    ensures forall p :: !HasCurrentGrant(w, p)
    ensures forall p :: CanReadWork(p, w) <==> p == owner || (command.RegisterWork? && p in command.readers)
    ensures w.managed == (if command.RegisterTaskWork? then Some(command.managed) else None)
    ensures Register(s.(works := s.works + [w]), other, again, laterId).Err?
  {
    assert (s.works + [w])[|s.works|] == w;
    assert WorkspaceHeld(s.works + [w], command.workspaceId);
  }

  // ---------- cases ----------

  /** A claim takes a free target: its parent leads under a generation above every earlier one, and the next claim is refused. */
  lemma ClaimingMeans(s: Control, owner: ParentId, key: Key, target: string, members: seq<ParentId>, elected: bool, newId: Id, c: Case, entity: Subject,
                      itemId: Id, other: ParentId, again: Key, others: seq<ParentId>, laterId: Id)
    requires Apply(s, owner, ClaimTarget(key, target, members), elected, newId) == Ok(Applied(AddCase(c), entity, itemId))
    ensures c.lead == owner && c.state == Active && c.target == target && c.effect == NotStarted && c.inputs == [] && c.targetOid.None?
    ensures c.origin == if elected then Some(PendingOrigin) else None
    ensures forall p :: p in c.members <==> p == owner || p in members
    ensures forall d :: d in s.cases && d.target == target ==> d.state == Closed && d.generation < c.generation
    ensures Apply(Put(s, AddCase(c)), other, ClaimTarget(again, target, others), elected, laterId) == Err(TargetInUse)
  {
    hide Register, ChangedWork, PostedNote, AnsweredNote, OwnWork, OwnCase, ChangedCase;
    assert (s.cases + [c])[|s.cases|] == c;
    assert TargetHeld(s.cases + [c], target);
  }

  /** A transfer changes the lead and the generation together: the old lead's next command on the case is refused. */
  lemma TransferringMeans(s: Control, i: nat, owner: ParentId, command: Command, elected: bool, c: Case, revision: nat, generation: nat)
    requires UniqueCases(s.cases) && i < |s.cases| && command.TransferCase? && s.cases[i].lead == owner
    requires ChangedCase(s, s.cases[i], owner, command, elected) == Ok(c)
    ensures c.lead == command.newLead != owner && c.lead in c.members && c.generation == s.cases[i].generation + 1
    ensures OwnCase(s.(cases := s.cases[i := c]), owner, c.id, revision, generation).Err?
  {
    hide CanReadCase;
    var t := s.(cases := s.cases[i := c]);
    assert t.cases[i] == c;
    assert forall k :: 0 <= k < |t.cases| ==> t.cases[k].id == s.cases[k].id;
    assert CaseIndex(t.cases, c.id) == i;
  }

  /** While an effect is possible only its settlement is accepted: no selection, transfer, release or second effect. */
  lemma EffectBlocks(s: Control, item: Case, owner: ParentId, command: Command, elected: bool)
    requires IsCaseChange(command) && item.effect == Possible
    ensures ChangedCase(s, item, owner, command, elected).Ok? ==> command.SettleExternal?
    ensures command.SettleExternal? ==> ChangedCase(s, item, owner, command, elected) == Ok(item.(effect := NotStarted, revision := item.revision + 1))
  {
    hide CanReadCase, InputsVisible;
  }

  /** A selection records the caller's inputs, and every member can read each of them; an observed claim becomes a
      selected one exactly by the elected selection that follows it. */
  lemma SelectionIsVisible(s: Control, item: Case, owner: ParentId, command: Command, elected: bool, c: Case)
    requires command.SelectInputs? && ChangedCase(s, item, owner, command, elected) == Ok(c)
    ensures c.inputs == command.inputs && c.targetOid == Some(command.targetOid) && c.members == item.members && c.lead == item.lead
    ensures elected <==> item.origin == Some(PendingOrigin)
    ensures c.origin == (if elected then Some(SelectedOrigin) else item.origin) && c.origin != Some(PendingOrigin)
    ensures forall k, m :: 0 <= k < |c.inputs| && 0 <= m < |c.members| ==> VisibleWork(s, c.members[m], c.inputs[k].workId)
  {
  }

  /** A release is final: the target is free again and the case takes no further command. */
  lemma ReleasingMeans(s: Control, i: nat, owner: ParentId, command: Command, elected: bool, c: Case, parent: ParentId, revision: nat, generation: nat)
    requires UniqueCases(s.cases) && i < |s.cases| && command.ReleaseCase?
    requires ChangedCase(s, s.cases[i], owner, command, elected) == Ok(c)
    ensures s.cases[i].effect == NotStarted && c.state == Closed && c.generation == s.cases[i].generation && c.inputs == s.cases[i].inputs
    ensures OwnCase(s.(cases := s.cases[i := c]), parent, c.id, revision, generation).Err?
  {
    var t := s.(cases := s.cases[i := c]);
    assert t.cases[i] == c;
    assert forall k :: 0 <= k < |t.cases| ==> t.cases[k].id == s.cases[k].id;
    assert CaseIndex(t.cases, c.id) == i;
  }

  /** The extension puts one more input at the end of the case it names and starts the whole delivery debt again. */
  predicate ExtendsCase(s: Control, x: Extension, i: nat, c: Case) {
    i < |s.cases| && s.cases[i].id == x.caseId && c.id == x.caseId && InputIds(c.inputs) == InputIds(s.cases[i].inputs) + [x.newWorkId] &&
    s.cases[i].inputs <= c.inputs && c.pending == Some(InputIds(c.inputs)) && c.observed == Some([]) &&
    s.cases[i].effect == NotStarted && c.effect == NotStarted
  }

  /** An extension lends every member every selected work at its current version: right after it each member can read
      each input, the added one included, and the whole delivery debt starts again. */
  lemma ExtensionDiscloses(s: Control, owner: ParentId, key: Key, x: Extension, i: nat, c: Case, schema: nat, r: Receipt)
    requires UniqueCases(s.cases) && ExtendBody(s, owner, key, x) == Ok(Ordinary(SetCase(i, c), schema, r))
    ensures ExtendsCase(s, x, i, c) && InputsVisible(Publish(s, Ordinary(SetCase(i, c), schema, r)), c.members, c.inputs)
  {
    ExtensionAdds(s, owner, key, x, i, c, schema, r);
    hide HasApplicationNote, VisibleWork, CanReadWork, NonReaders;
    var t := Publish(s, Ordinary(SetCase(i, c), schema, r));
    assert t.cases[i] == c && t.works == s.works;
    forall k, m | 0 <= k < |c.inputs| && 0 <= m < |c.members| ensures VisibleWork(t, c.members[m], c.inputs[k].workId) {
      var w := s.works[WorkIndex(s.works, c.inputs[k].workId)];
      Lent(s.works, c, k, c.members[m]);
      assert Selects(c, w.id) by { assert c.inputs[k].workId == w.id; }
      LentIsVisible(t, i, k, c.members[m]);
    }
  }

  lemma ExtensionAdds(s: Control, owner: ParentId, key: Key, x: Extension, i: nat, c: Case, schema: nat, r: Receipt)
    requires ExtendBody(s, owner, key, x) == Ok(Ordinary(SetCase(i, c), schema, r))
    ensures ExtendsCase(s, x, i, c)
  {
    hide HasApplicationNote, VisibleWork, CompatibleSource, Selects, DeltaFor, AddMember;
    assert InputIds(c.inputs) == InputIds(s.cases[i].inputs) + [x.newWorkId];
  }

  lemma Lent(ws: seq<Work>, c: Case, k: nat, parent: ParentId)
    requires k < |c.inputs| && HasWork(ws, c.inputs[k].workId) && ws[WorkIndex(ws, c.inputs[k].workId)].managed.Some? && parent in c.members
    ensures var w := ws[WorkIndex(ws, c.inputs[k].workId)];
            w.id == c.inputs[k].workId && (CanReadWork(parent, w) || DeltaAdmits(DeltaFor(ws, c.inputs[k].workId, c.members), w, parent))
  {
  }

  lemma LentIsVisible(s: Control, i: nat, k: nat, parent: ParentId)
    requires i < |s.cases| && s.cases[i].state == Active && s.cases[i].origin == Some(SelectedOrigin) && parent in s.cases[i].members
    requires k < |s.cases[i].inputs| && HasWork(s.works, s.cases[i].inputs[k].workId) && Selects(s.cases[i], s.cases[i].inputs[k].workId)
    requires s.cases[i].visibility.Some? && k < |s.cases[i].visibility.value|
    requires var w := s.works[WorkIndex(s.works, s.cases[i].inputs[k].workId)];
             CanReadWork(parent, w) || DeltaAdmits(s.cases[i].visibility.value[k], w, parent)
    ensures VisibleWork(s, parent, s.cases[i].inputs[k].workId)
  {
    hide DeltaAdmits, Selects;
  }

  /** An observed case lends a work only at the version its delta names, so any later version of the work is read by
      its owner and its readers alone. */
  lemma LoansEndWithAnyChange(s: Control, i: nat, w: Work, parent: ParentId)
    requires ObservedCases.ObservedOk(s.works, s.cases) && UniqueWorks(s.works) && i < |s.works|
    requires w.id == s.works[i].id && w.revision > s.works[i].revision
    ensures CanReadSelectedWork(s.cases, parent, w) <==> CanReadWork(parent, w)
  {
    assert WorkIndex(s.works, w.id) == i by { assert UniqueWorks(s.works); }
    forall c, k | 0 <= c < |s.cases| && s.cases[c].visibility.Some? && 0 <= k < |s.cases[c].visibility.value|
      ensures !DeltaAdmits(s.cases[c].visibility.value[k], w, parent)
    {
      assert ObservedCases.DeltasOk(s.works, s.cases[c]);
      assert ObservedCases.DeltaOk(s.works, s.cases[c].members, s.cases[c].visibility.value[k]);
    }
  }

  // ---------- notes ----------

  /** Text that named its audience is read by that audience, its author and its parties, and by nobody else, ever. */
  predicate Outside(n: Note, parent: ParentId) {
    n.author != parent && ParentParty(parent) !in n.parties && (n.subject.kind == WorkSubject || n.readers.Some?) &&
    (n.readers.Some? ==> parent !in n.readers.value)
  }

  lemma OutsiderCannotRead(s: Control, parent: ParentId, n: Note)
    requires Outside(n, parent)
    ensures !NoteReadable(s, parent, n)
  {
  }

  /** The parent cannot read the note with the identity, which is still there. */
  predicate Unreadable(s: Control, parent: ParentId, noteId: Id) {
    HasNote(s.notes, noteId) && !NoteReadable(s, parent, s.notes[NoteIndex(s.notes, noteId)])
  }

  /** The audience a note had when it was posted is the one it has in every later state of the run. */
  lemma AudienceIsFixed(t: Trace, u: Trace, n: Note, parent: ParentId)
    requires Run(u) && Continues(t, u) && n in Now(t).notes && Outside(n, parent)
    ensures Unreadable(Now(u), parent, n.id)
  {
    hide *;
    NothingIsLost(t, u);
    StaysOutside(Now(t), Now(u), n, parent);
  }

  lemma StaysOutside(s: Control, t: Control, n: Note, parent: ParentId)
    requires Later(s, t) && n in s.notes && Outside(n, parent)
    ensures Unreadable(t, parent, n.id)
  {
    hide WorkLasts, CaseLasts, BindingsLast, NoteReadable;
    assert NoteLasts(n, t);
    OutsiderCannotRead(t, parent, t.notes[NoteIndex(t.notes, n.id)]);
  }

  /** A note on a work names exactly the parents that can read the work. */
  lemma PostedAudience(s: Control, owner: ParentId, command: Command, newId: Id, n: Note)
    requires command.PostNote? && command.subject.kind == WorkSubject && PostedNote(s, owner, command, newId) == Ok(n)
    ensures HasWork(s.works, command.subject.id) && n.readers.Some?
    ensures forall p :: p in n.readers.value <==> CanReadWork(p, s.works[WorkIndex(s.works, command.subject.id)])
    ensures n.author == owner && n.text == command.text && n.acknowledged == [] && !n.withdrawn
  {
    hide CanReadSelectedWork;
  }
}
