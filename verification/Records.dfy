/** Lookups, list edits and reading authority over the retained records. */
module Records {
  import opened ControlTypes

  // ---------- lookups: the first record with the given identity, or the length when there is none ----------

  /** The first position whose element satisfies the test. */
  function IndexWhere<T>(xs: seq<T>, test: T -> bool): (i: nat)
    ensures i <= |xs|
    ensures i < |xs| ==> test(xs[i])
    ensures forall j :: 0 <= j < i ==> !test(xs[j])
  {
    if xs == [] || test(xs[0]) then 0 else 1 + IndexWhere(xs[1..], test)
  }

  function WorkIndex(ws: seq<Work>, id: Id): (i: nat)
    ensures i <= |ws|
    ensures i < |ws| ==> ws[i].id == id
    ensures forall j :: 0 <= j < i ==> ws[j].id != id
  {
    IndexWhere(ws, (x: Work) => x.id == id)
  }

  function CaseIndex(cs: seq<Case>, id: Id): (i: nat)
    ensures i <= |cs|
    ensures i < |cs| ==> cs[i].id == id
    ensures forall j :: 0 <= j < i ==> cs[j].id != id
  {
    IndexWhere(cs, (x: Case) => x.id == id)
  }

  function NoteIndex(ns: seq<Note>, id: Id): (i: nat)
    ensures i <= |ns|
    ensures i < |ns| ==> ns[i].id == id
    ensures forall j :: 0 <= j < i ==> ns[j].id != id
  {
    IndexWhere(ns, (x: Note) => x.id == id)
  }

  function AnnouncementIndex(xs: seq<Announcement>, id: Id): (i: nat)
    ensures i <= |xs|
    ensures i < |xs| ==> xs[i].id == id
    ensures forall j :: 0 <= j < i ==> xs[j].id != id
  {
    IndexWhere(xs, (x: Announcement) => x.id == id)
  }

  function BindingIndex(bs: seq<Binding>, taskId: Id): (i: nat)
    ensures i <= |bs|
    ensures i < |bs| ==> bs[i].taskId == taskId
    ensures forall j :: 0 <= j < i ==> bs[j].taskId != taskId
  {
    IndexWhere(bs, (x: Binding) => x.taskId == taskId)
  }

  predicate HasWork(ws: seq<Work>, id: Id) { WorkIndex(ws, id) < |ws| }
  predicate HasCase(cs: seq<Case>, id: Id) { CaseIndex(cs, id) < |cs| }
  predicate HasNote(ns: seq<Note>, id: Id) { NoteIndex(ns, id) < |ns| }
  predicate HasAnnouncement(xs: seq<Announcement>, id: Id) { AnnouncementIndex(xs, id) < |xs| }
  predicate HasBinding(bs: seq<Binding>, taskId: Id) { BindingIndex(bs, taskId) < |bs| }

  // ---------- list edits ----------

  /** Every element other than `x`, in order. */
  function Without<T(==,!new)>(xs: seq<T>, x: T): (r: seq<T>)
    ensures forall y :: y in r <==> y in xs && y != x
    ensures |r| <= |xs|
  {
    if xs == [] then []
    else (if xs[0] == x then [] else [xs[0]]) + Without(xs[1..], x)
  }

  predicate Distinct<T(==)>(xs: seq<T>) {
    forall i, j :: 0 <= i < j < |xs| ==> xs[i] != xs[j]
  }

  /** Appending to a set kept as a list. */
  function AddMember(xs: seq<ParentId>, x: ParentId): (r: seq<ParentId>)
    ensures forall y :: y in r <==> y in xs || y == x
    ensures Distinct(xs) ==> Distinct(r)
  {
    if x in xs then xs else xs + [x]
  }

  lemma {:induction false} WithoutDistinct<T(!new)>(xs: seq<T>, x: T)
    requires Distinct(xs)
    ensures Distinct(Without(xs, x))
  {
    if xs != [] {
      var rest := Without(xs[1..], x);
      WithoutDistinct(xs[1..], x);
      assert forall k :: 0 <= k < |rest| ==> rest[k] in rest;
    }
  }

  /** Two lists of equal length naming the same elements. */
  predicate SameSet<T(==)>(left: seq<T>, right: seq<T>) {
    |left| == |right| && forall x :: x in left ==> x in right
  }

  function InputIds(inputs: seq<Selection>): (r: seq<Id>)
    ensures |r| == |inputs|
    ensures forall i :: 0 <= i < |r| ==> r[i] == inputs[i].workId
  {
    seq(|inputs|, i requires 0 <= i < |inputs| => inputs[i].workId)
  }

  predicate Selects(item: Case, workId: Id) {
    exists i :: 0 <= i < |item.inputs| && item.inputs[i].workId == workId
  }

  function AsParties(parents: seq<ParentId>): (r: seq<Party>)
    ensures |r| == |parents|
    ensures forall i :: 0 <= i < |r| ==> r[i] == ParentParty(parents[i])
  {
    seq(|parents|, i requires 0 <= i < |parents| => ParentParty(parents[i]))
  }

  // ---------- reading authority ----------

  predicate CanReadWork(parent: ParentId, w: Work) {
    w.owner == parent || parent in w.readers
  }

  predicate DeltaAdmits(d: Delta, w: Work, parent: ParentId) {
    d.workId == w.id && d.workRevision == w.revision &&
    w.managed.Some? && d.controlGeneration == w.managed.value.controlGeneration &&
    d.areas == w.areas && parent in d.added
  }

  /** A selected observed case lends its members the exact versions its visibility delta names. */
  predicate CanReadSelectedWork(cases: seq<Case>, parent: ParentId, w: Work) {
    CanReadWork(parent, w) ||
    exists i :: 0 <= i < |cases| && cases[i].state == Active && cases[i].origin == Some(SelectedOrigin) &&
      parent in cases[i].members && Selects(cases[i], w.id) && cases[i].visibility.Some? &&
      exists k :: 0 <= k < |cases[i].visibility.value| && DeltaAdmits(cases[i].visibility.value[k], w, parent)
  }

  predicate VisibleWork(s: Control, parent: ParentId, id: Id) {
    HasWork(s.works, id) && CanReadSelectedWork(s.cases, parent, s.works[WorkIndex(s.works, id)])
  }

  predicate CanReadCase(s: Control, parent: ParentId, item: Case) {
    parent in item.members &&
    forall k :: 0 <= k < |item.inputs| ==> VisibleWork(s, parent, item.inputs[k].workId)
  }

  predicate VisibleCase(s: Control, parent: ParentId, id: Id) {
    HasCase(s.cases, id) && CanReadCase(s, parent, s.cases[CaseIndex(s.cases, id)])
  }

  predicate SubjectVisible(s: Control, parent: ParentId, subject: Subject) {
    match subject.kind
    case WorkSubject => VisibleWork(s, parent, subject.id)
    case CaseSubject => VisibleCase(s, parent, subject.id)
  }

  /** Case-scoped visibility never adds a reader to text that named its audience. */
  predicate NoteReadable(s: Control, parent: ParentId, note: Note) {
    SubjectVisible(s, parent, note.subject) &&
    (note.subject.kind == WorkSubject || note.readers.Some? ||
     (HasCase(s.cases, note.subject.id) && s.cases[CaseIndex(s.cases, note.subject.id)].origin.Some?)
     ==> (note.readers.Some? && parent in note.readers.value) || note.author == parent || ParentParty(parent) in note.parties) &&
    forall k :: 0 <= k < |note.workRefs| ==> VisibleWork(s, parent, note.workRefs[k])
  }

  // ---------- key lookups ----------

  predicate ReceiptKeyUsed(rs: seq<Receipt>, owner: ParentId, key: Key) {
    exists i :: 0 <= i < |rs| && rs[i].owner == owner && rs[i].key == key
  }
  predicate RecoveryKeyUsed(rs: seq<RecoveryReceipt>, owner: ParentId, key: Key) {
    exists i :: 0 <= i < |rs| && rs[i].operator == owner && rs[i].recovery.key == key
  }
  predicate EventKeyUsed(es: seq<Event>, owner: ParentId, key: Key) {
    exists i :: 0 <= i < |es| && es[i].owner == owner && es[i].key == key
  }

  function ReceiptFor(rs: seq<Receipt>, owner: ParentId, key: Key): (r: Option<Receipt>)
    ensures r.Some? <==> ReceiptKeyUsed(rs, owner, key)
    ensures r.Some? ==> r.value in rs && r.value.owner == owner && r.value.key == key
  {
    if rs == [] then None
    else if rs[0].owner == owner && rs[0].key == key then Some(rs[0])
    else
      var rest := ReceiptFor(rs[1..], owner, key);
      assert forall i :: 1 <= i < |rs| ==> rs[i] == rs[1..][i - 1];
      rest
  }

  function RecoveryFor(rs: seq<RecoveryReceipt>, owner: ParentId, key: Key): (r: Option<RecoveryReceipt>)
    ensures r.Some? <==> RecoveryKeyUsed(rs, owner, key)
    ensures r.Some? ==> r.value in rs && r.value.operator == owner && r.value.recovery.key == key
  {
    if rs == [] then None
    else if rs[0].operator == owner && rs[0].recovery.key == key then Some(rs[0])
    else
      var rest := RecoveryFor(rs[1..], owner, key);
      assert forall i :: 1 <= i < |rs| ==> rs[i] == rs[1..][i - 1];
      rest
  }

  function EventFor(es: seq<Event>, owner: ParentId, key: Key): (r: Option<Event>)
    ensures r.Some? <==> EventKeyUsed(es, owner, key)
    ensures r.Some? ==> r.value in es && r.value.owner == owner && r.value.key == key
  {
    if es == [] then None
    else if es[0].owner == owner && es[0].key == key then Some(es[0])
    else
      var rest := EventFor(es[1..], owner, key);
      assert forall i :: 1 <= i < |es| ==> es[i] == es[1..][i - 1];
      rest
  }
}
