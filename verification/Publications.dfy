/** What one publication changes: at most one work, case or note, or the submission lists, together
    with the one ledger entry that acknowledges it. */
module Publications {
  import opened ControlTypes

  datatype Change =
    | AddWork(work: Work) | SetWork(index: nat, work: Work)
    | AddCase(item: Case) | SetCase(index: nat, item: Case)
    | AddNote(note: Note) | SetNote(index: nat, note: Note)

  function Replace<T>(xs: seq<T>, i: nat, x: T): seq<T> {
    if i < |xs| then xs[i := x] else xs
  }

  function WorksAfter(ws: seq<Work>, ch: Change): seq<Work> {
    match ch
    case AddWork(w) => ws + [w]
    case SetWork(i, w) => Replace(ws, i, w)
    case _ => ws
  }

  function CasesAfter(cs: seq<Case>, ch: Change): seq<Case> {
    match ch
    case AddCase(c) => cs + [c]
    case SetCase(i, c) => Replace(cs, i, c)
    case _ => cs
  }

  function NotesAfter(ns: seq<Note>, ch: Change): seq<Note> {
    match ch
    case AddNote(n) => ns + [n]
    case SetNote(i, n) => Replace(ns, i, n)
    case _ => ns
  }

  function Put(s: Control, ch: Change): Control {
    s.(works := WorksAfter(s.works, ch), cases := CasesAfter(s.cases, ch), notes := NotesAfter(s.notes, ch))
  }

  datatype Publication =
    | Ordinary(change: Change, schema: nat, receipt: Receipt)
    | Recovering(change: Change, schema: nat, recovery: RecoveryReceipt)
    | Submitting(announcements: seq<Announcement>, bindings: seq<Binding>, schema: nat, event: Event)

  /** The change of the records, if it makes one. */
  function ChangeOf(p: Publication): Option<Change> {
    match p
    case Ordinary(ch, _, _) => Some(ch)
    case Recovering(ch, _, _) => Some(ch)
    case Submitting(_, _, _, _) => None
  }

  /** The receipt a publication adds, if it adds one. */
  function NewReceipts(p: Publication): seq<Receipt> {
    match p
    case Ordinary(_, _, r) => [r]
    case _ => []
  }

  /** The note a publication adds, if it adds one. */
  function NewNotes(p: Publication): seq<Note> {
    match p
    case Ordinary(AddNote(n), _, _) => [n]
    case Recovering(AddNote(n), _, _) => [n]
    case _ => []
  }

  /** The case a publication adds, if it adds one. */
  function NewCases(p: Publication): seq<Case> {
    match p
    case Ordinary(AddCase(c), _, _) => [c]
    case Recovering(AddCase(c), _, _) => [c]
    case _ => []
  }

  /** The state a publication writes: one revision later, one ledger longer by one entry. */
  function Publish(s: Control, p: Publication): Control {
    match p
    case Ordinary(ch, schema, r) => Put(s, ch).(schema := schema, revision := s.revision + 1, receipts := s.receipts + [r])
    case Recovering(ch, schema, r) => Put(s, ch).(schema := schema, revision := s.revision + 1, recoveries := s.recoveries + [r])
    case Submitting(a, b, schema, e) =>
      s.(schema := schema, revision := s.revision + 1, announcements := a, bindings := b, events := s.events + [e])
  }
}
