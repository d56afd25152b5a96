/** What one fitting change keeps: the record invariants, the exact history and the key uniqueness
    survive any publication whose change fits the state it is applied to. */
module Preservation {
  import opened ControlTypes
  import opened Records
  import opened Publications
  import opened Invariant
  import Ledger

  // ---------- when a change fits a state ----------

  predicate FreshId(s: Control, id: Id) {
    !KnownId(s.works, s.cases, s.notes, id)
  }

  /** Everything about a work that its enrollment fixes. */
  predicate SameEnrollment(was: Work, w: Work) {
    w.id == was.id && w.workspaceId == was.workspaceId && w.inputOid == was.inputOid && w.objectFormat == was.objectFormat &&
    w.intent == was.intent && w.areas == was.areas && w.managed == was.managed
  }

  predicate FitsWork(s: Control, ch: Change)
    requires ch.AddWork? || ch.SetWork?
  {
    match ch
    case AddWork(w) =>
      FreshId(s, w.id) && WorkOk(w, s.revision + 1) && (w.state == Active ==> !Ledger.WorkspaceHeld(s.works, w.workspaceId))
    case SetWork(i, w) =>
      i < |s.works| && SameEnrollment(s.works[i], w) && WorkOk(w, s.revision + 1) && (s.works[i].state == Closed ==> w.state == Closed)
  }

  /** A new case outranks every case its target has had; a changed case was its target's active one. */
  predicate FitsCase(s: Control, ch: Change)
    requires ch.AddCase? || ch.SetCase?
  {
    match ch
    case AddCase(c) =>
      FreshId(s, c.id) && CaseOk(c, s.revision + 1) && c.inputs == [] &&
      forall j :: 0 <= j < |s.cases| && s.cases[j].target == c.target ==> s.cases[j].state == Closed && s.cases[j].generation < c.generation
    case SetCase(i, c) =>
      i < |s.cases| && c.id == s.cases[i].id && c.target == s.cases[i].target && s.cases[i].state == Active &&
      s.cases[i].generation <= c.generation <= s.cases[i].generation + 1 && CaseOk(c, s.revision + 1) && InputsKnown(s.works, c)
  }

  predicate FitsNote(s: Control, ch: Change)
    requires ch.AddNote? || ch.SetNote?
  {
    match ch
    case AddNote(n) => FreshId(s, n.id) && NoteOk(n) && NoteRefers(s.works, s.cases, n)
    case SetNote(i, n) =>
      i < |s.notes| && n.(acknowledged := s.notes[i].acknowledged, withdrawn := s.notes[i].withdrawn) == s.notes[i] && NoteOk(n)
  }

  predicate Fits(s: Control, ch: Change) {
    if ch.AddWork? || ch.SetWork? then FitsWork(s, ch)
    else if ch.AddCase? || ch.SetCase? then FitsCase(s, ch)
    else FitsNote(s, ch)
  }

  // ---------- identities survive ----------

  lemma WorkKnownAfter(ws: seq<Work>, ch: Change, id: Id)
    requires ch.SetWork? ==> ch.index < |ws| && ws[ch.index].id == ch.work.id
    requires HasWork(ws, id)
    ensures HasWork(WorksAfter(ws, ch), id)
  {
    var i := WorkIndex(ws, id);
    assert WorksAfter(ws, ch)[i].id == id;
  }

  lemma CaseKnownAfter(cs: seq<Case>, ch: Change, id: Id)
    requires ch.SetCase? ==> ch.index < |cs| && cs[ch.index].id == ch.item.id
    requires HasCase(cs, id)
    ensures HasCase(CasesAfter(cs, ch), id)
  {
    var i := CaseIndex(cs, id);
    assert CasesAfter(cs, ch)[i].id == id;
  }

  lemma NoteKnownAfter(ns: seq<Note>, ch: Change, id: Id)
    requires ch.SetNote? ==> ch.index < |ns| && ns[ch.index].id == ch.note.id
    requires HasNote(ns, id)
    ensures HasNote(NotesAfter(ns, ch), id)
  {
    var i := NoteIndex(ns, id);
    assert NotesAfter(ns, ch)[i].id == id;
  }

  lemma FitsKeepsIds(s: Control, ch: Change)
    requires Fits(s, ch)
    ensures ch.SetWork? ==> ch.index < |s.works| && s.works[ch.index].id == ch.work.id
    ensures ch.SetCase? ==> ch.index < |s.cases| && s.cases[ch.index].id == ch.item.id
    ensures ch.SetNote? ==> ch.index < |s.notes| && s.notes[ch.index].id == ch.note.id
  {
  }

  lemma NotKnown(s: Control, id: Id)
    requires FreshId(s, id)
    ensures forall i :: 0 <= i < |s.works| ==> s.works[i].id != id
    ensures forall i :: 0 <= i < |s.cases| ==> s.cases[i].id != id
    ensures forall i :: 0 <= i < |s.notes| ==> s.notes[i].id != id
  {
  }

  // ---------- each list keeps its own invariant ----------

  lemma WorksKept(s: Control, ch: Change)
    requires WorksOk(s.works, s.revision)
    requires Fits(s, ch)
    ensures WorksOk(WorksAfter(s.works, ch), s.revision + 1)
  {
    if ch.AddWork? { NotKnown(s, ch.work.id); }
  }

  lemma FencedKept(s: Control, ch: Change)
    requires Fenced(s.cases) && Fits(s, ch)
    ensures Fenced(CasesAfter(s.cases, ch))
  {
    hide CaseOk, InputsKnown, FitsWork, FitsNote, FreshId;
  }

  lemma CasesKept(s: Control, ch: Change)
    requires CasesOk(s.cases, s.revision) && Fits(s, ch)
    ensures CasesOk(CasesAfter(s.cases, ch), s.revision + 1)
  {
    FencedKept(s, ch);
    if ch.AddCase? { NotKnown(s, ch.item.id); }
    hide Fenced, InputsKnown, FitsWork, FitsNote;
  }

  lemma NotesKept(s: Control, ch: Change)
    requires NotesOk(s.notes)
    requires Fits(s, ch)
    ensures NotesOk(NotesAfter(s.notes, ch))
  {
    if ch.AddNote? { NotKnown(s, ch.note.id); }
  }

  // ---------- references between lists ----------

  lemma InputsStillKnown(ws: seq<Work>, ch: Change, c: Case)
    requires ch.SetWork? ==> ch.index < |ws| && ws[ch.index].id == ch.work.id
    requires InputsKnown(ws, c)
    ensures InputsKnown(WorksAfter(ws, ch), c)
  {
    forall k | 0 <= k < |c.inputs| ensures HasWork(WorksAfter(ws, ch), c.inputs[k].workId) {
      WorkKnownAfter(ws, ch, c.inputs[k].workId);
    }
  }

  lemma CasesStillKnown(s: Control, ch: Change)
    requires CasesKnown(s.works, s.cases) && Fits(s, ch)
    ensures CasesKnown(WorksAfter(s.works, ch), CasesAfter(s.cases, ch))
  {
    FitsKeepsIds(s, ch);
    forall i | 0 <= i < |CasesAfter(s.cases, ch)| ensures InputsKnown(WorksAfter(s.works, ch), CasesAfter(s.cases, ch)[i]) {
      InputsStillKnown(s.works, ch, CasesAfter(s.cases, ch)[i]);
    }
  }

  lemma SubjectStillKnown(s: Control, ch: Change, subject: Subject)
    requires SubjectKnown(s.works, s.cases, subject) && Fits(s, ch)
    ensures SubjectKnown(WorksAfter(s.works, ch), CasesAfter(s.cases, ch), subject)
  {
    FitsKeepsIds(s, ch);
    if subject.kind == WorkSubject { WorkKnownAfter(s.works, ch, subject.id); } else { CaseKnownAfter(s.cases, ch, subject.id); }
  }

  lemma NoteStillRefers(s: Control, ch: Change, n: Note)
    requires NoteRefers(s.works, s.cases, n) && Fits(s, ch)
    ensures NoteRefers(WorksAfter(s.works, ch), CasesAfter(s.cases, ch), n)
  {
    FitsKeepsIds(s, ch);
    SubjectStillKnown(s, ch, n.subject);
    forall k | 0 <= k < |n.workRefs| ensures HasWork(WorksAfter(s.works, ch), n.workRefs[k]) {
      WorkKnownAfter(s.works, ch, n.workRefs[k]);
    }
  }

  lemma NotesStillKnown(s: Control, ch: Change)
    requires NotesKnown(s.works, s.cases, s.notes) && Fits(s, ch)
    ensures NotesKnown(WorksAfter(s.works, ch), CasesAfter(s.cases, ch), NotesAfter(s.notes, ch))
  {
    hide HasWork, HasCase, HasNote, SubjectKnown;
    var ns := NotesAfter(s.notes, ch);
    forall i | 0 <= i < |ns| ensures NoteRefers(WorksAfter(s.works, ch), CasesAfter(s.cases, ch), ns[i]) {
      assert NoteRefers(s.works, s.cases, ns[i]);
      NoteStillRefers(s, ch, ns[i]);
    }
  }

  lemma IdsStillDisjoint(s: Control, ch: Change)
    requires IdsDisjoint(s.works, s.cases, s.notes) && Fits(s, ch)
    ensures IdsDisjoint(WorksAfter(s.works, ch), CasesAfter(s.cases, ch), NotesAfter(s.notes, ch))
  {
    hide HasWork, HasCase, HasNote, KnownId, FreshId;
    match ch
    case AddWork(w) => NotKnown(s, w.id);
    case AddCase(c) => NotKnown(s, c.id);
    case AddNote(n) => NotKnown(s, n.id);
    case _ =>
  }

  /** Every fitting change keeps the invariants of works, cases and notes. */
  lemma RecordsKept(s: Control, ch: Change)
    requires RecordsOk(s) && Fits(s, ch)
    ensures RecordsOk(Put(s, ch).(revision := s.revision + 1))
  {
    hide Fits, WorksOk, CasesOk, NotesOk, CasesKnown, NotesKnown, IdsDisjoint;
    WorksKept(s, ch);
    CasesKept(s, ch);
    NotesKept(s, ch);
    CasesStillKnown(s, ch);
    NotesStillKnown(s, ch);
    IdsStillDisjoint(s, ch);
  }
}
