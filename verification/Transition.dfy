/** The allowed-step relation on retained control history: what a publication may change, judged
    from the two states and the one acknowledgment it appends, without knowing how it was computed. */
module Transition {
  import opened ControlTypes
  import opened Records
  import Ledger

  predicate Extends<T(==)>(before: seq<T>, next: seq<T>) {
    before <= next
  }

  function Last<T>(xs: seq<T>): (x: T)
    requires xs != []
  {
    xs[|xs| - 1]
  }

  function ListOf<T>(o: Option<seq<T>>): seq<T> {
    if o.Some? then o.value else []
  }

  // ---------- works ----------

  /** Everything about a work except its revision, state, readers, grants and watches. */
  predicate SameWorkIdentity(was: Work, item: Work) {
    item.(revision := was.revision, state := was.state, readers := was.readers, grants := was.grants, watches := was.watches) == was
  }

  predicate WorkAdvances(was: Work, item: Work) {
    SameWorkIdentity(was, item) && was.revision <= item.revision <= was.revision + 1 &&
    (was.state == Closed ==> item.state == Closed) && (item.revision == was.revision ==> item == was)
  }

  function RecipientsOf(grants: seq<Grant>): (r: seq<Recipient>)
    ensures |r| == |grants|
    ensures forall i :: 0 <= i < |r| ==> r[i] == grants[i].recipient
  {
    seq(|grants|, i requires 0 <= i < |grants| => grants[i].recipient)
  }

  function WatchersOf(watches: seq<Watch>): (r: seq<Watcher>)
    ensures |r| == |watches|
    ensures forall i :: 0 <= i < |r| ==> r[i] == watches[i].watcher
  {
    seq(|watches|, i requires 0 <= i < |watches| => watches[i].watcher)
  }

  predicate OwnerChange(was: Work, item: Work, receipt: Receipt) {
    was.owner == receipt.owner && was.state == Active && item.state == Active &&
    item.revision == was.revision + 1 && item.readers == was.readers
  }

  /** A grant publication is exactly what its retained request says. */
  predicate GrantAllowed(was: Work, item: Work, receipt: Receipt) {
    OwnerChange(was, item, receipt) &&
    (forall i :: 0 <= i < |ListOf(item.grants)| ==>
       ListOf(item.grants)[i].workRevision == item.revision && ListOf(item.grants)[i].recipient.parent != was.owner) &&
    ListOf(item.watches) == [] &&
    receipt.request == CommandRequest(was.owner, GrantSource(receipt.key, was.id, was.revision, RecipientsOf(ListOf(item.grants))))
  }

  predicate WatchAllowed(was: Work, item: Work, receipt: Receipt) {
    OwnerChange(was, item, receipt) && item.watches.Some? &&
    item.grants == (if was.grants.Some? then Some(Ledger.RestampGrants(was.grants.value, item.revision)) else None) &&
    receipt.request == CommandRequest(was.owner, WatchSource(receipt.key, was.id, was.revision, WatchersOf(item.watches.value)))
  }

  predicate DropsOnly<T(==)>(was: Option<seq<T>>, item: Option<seq<T>>, advanced: bool) {
    ListOf(was) == ListOf(item) || (advanced && ListOf(item) == [])
  }

  predicate WorkAllowed(was: Work, item: Work, receipt: Option<Receipt>) {
    WorkAdvances(was, item) &&
    (if receipt.Some? && receipt.value.action == ActGrantSource then
       (if receipt.value.itemId == was.id then GrantAllowed(was, item, receipt.value) else item == was)
     else if receipt.Some? && receipt.value.action == ActWatchSource then
       (if receipt.value.itemId == was.id then WatchAllowed(was, item, receipt.value) else item == was)
     else
       DropsOnly(was.grants, item.grants, item.revision == was.revision + 1) &&
       DropsOnly(was.watches, item.watches, item.revision == was.revision + 1))
  }

  // ---------- cases ----------

  predicate CaseAdvances(was: Case, item: Case, extension: bool, observation: bool) {
    was.target == item.target && (extension || was.members == item.members) &&
    was.revision <= item.revision <= was.revision + 1 && was.generation <= item.generation <= was.generation + 1 &&
    (was.lead != item.lead ==> item.generation == was.generation + 1) &&
    (was.state == Closed ==> item == was) && (item.revision == was.revision && !observation ==> item == was)
  }

  /** The extension adds one managed input, its owner, and a fresh delivery debt to every input. */
  predicate ExtensionAllowed(before: Control, next: Control, was: Case, item: Case, receipt: Receipt) {
    item.inputs != [] &&
    var newInput := Last(item.inputs);
    HasWork(next.works, newInput.workId) &&
    var newWork := next.works[WorkIndex(next.works, newInput.workId)];
    newWork.managed.Some? && !Selects(was, newInput.workId) &&
    was.state == Active && was.origin == Some(SelectedOrigin) && was.effect == NotStarted &&
    item.inputs == was.inputs + [newInput] &&
    (forall k :: 0 <= k < |item.inputs| ==>
       HasWork(next.works, item.inputs[k].workId) && next.works[WorkIndex(next.works, item.inputs[k].workId)].managed.Some?) &&
    var members := AddMember(was.members, newWork.owner);
    item == was.(members := members, inputs := item.inputs, pending := Some(InputIds(item.inputs)), observed := Some([]),
                 visibility := Some(seq(|item.inputs|, k requires 0 <= k < |item.inputs| =>
                   Ledger.DeltaFor(next.works, item.inputs[k].workId, members))),
                 revision := was.revision + 1) &&
    receipt.owner == was.lead && was.targetOid.Some? &&
    receipt.request == ExtensionRequest(was.lead, receipt.key,
      Extension(was.id, was.revision, was.generation, newInput.workId, was.targetOid.value)) &&
    before.works == next.works && before.notes == next.notes
  }

  predicate ObservationAllowed(before: Control, next: Control, was: Case, item: Case, receipt: Receipt) {
    ListOf(item.observed) != [] &&
    var seen := Last(ListOf(item.observed));
    was.state == Active && was.origin == Some(SelectedOrigin) && was.pending.Some? && seen.workId in was.pending.value &&
    item == was.(pending := Some(Without(was.pending.value, seen.workId)), observed := Some(ListOf(was.observed) + [seen])) &&
    receipt.owner == was.lead &&
    receipt.request == ObservationRequest(was.lead, receipt.key,
      Observation(was.id, was.revision, was.generation, seen.workId, seen.digest)) &&
    before.works == next.works && before.notes == next.notes
  }

  predicate CaseAllowed(before: Control, next: Control, was: Case, item: Case, receipt: Option<Receipt>) {
    var extension := receipt.Some? && receipt.value.action == ActExtendCase && receipt.value.itemId == was.id;
    var observation := receipt.Some? && receipt.value.action == ActObserveDelivery && receipt.value.itemId == was.id;
    CaseAdvances(was, item, extension, observation) &&
    (extension ==> ExtensionAllowed(before, next, was, item, receipt.value)) &&
    (observation ==> ObservationAllowed(before, next, was, item, receipt.value))
  }

  // ---------- notes ----------

  /** Text, context and parties are immutable; acknowledgments only grow; withdrawal is final. */
  predicate NoteAllowed(was: Note, item: Note) {
    item.(acknowledged := was.acknowledged, withdrawn := was.withdrawn) == was &&
    (was.withdrawn ==> item.withdrawn) && Extends(was.acknowledged, item.acknowledged)
  }

  // ---------- one submission event ----------

  /** One announcement advances to the state; with `keepTask` it keeps the task it names. */
  predicate AnnouncementAdvances(before: seq<Announcement>, next: seq<Announcement>, id: Id, state: AnnouncementState,
                                 keepTask: bool, taskId: Option<Id>) {
    |next| == |before| &&
    forall i :: 0 <= i < |before| ==>
      (if before[i].id == id
       then next[i] == before[i].(revision := before[i].revision + 1, state := state,
                                  taskId := if keepTask then before[i].taskId else taskId)
       else next[i] == before[i])
  }

  predicate BindingBecomes(before: seq<Binding>, next: seq<Binding>, taskId: Id, state: BindingState, terminal: Option<Terminal>) {
    |next| == |before| &&
    forall i :: 0 <= i < |before| ==>
      (if before[i].taskId == taskId then next[i] == before[i].(state := state, terminal := terminal) else next[i] == before[i])
  }

  predicate AnnounceAllowed(before: Control, next: Control, e: Event) {
    next.bindings == before.bindings && |next.announcements| == |before.announcements| + 1 &&
    before.announcements <= next.announcements &&
    var added := Last(next.announcements);
    added.id == e.itemId && added.owner == e.owner && added.state == Unresolved && added.revision == 1
  }

  predicate WithdrawAllowed(before: Control, next: Control, e: Event) {
    HasAnnouncement(before.announcements, e.itemId) && next.bindings == before.bindings &&
    var was := before.announcements[AnnouncementIndex(before.announcements, e.itemId)];
    was.owner == e.owner && was.state == Unresolved &&
    AnnouncementAdvances(before.announcements, next.announcements, was.id, Withdrawn, true, None)
  }

  predicate BindAllowed(before: Control, next: Control, e: Event) {
    |next.bindings| == |before.bindings| + 1 && before.bindings <= next.bindings &&
    var added := Last(next.bindings);
    added.taskId == e.itemId && added.owner == e.owner && added.state == Bound &&
    (added.announcement.Some? ==>
       exists i :: 0 <= i < |before.announcements| && before.announcements[i].id == added.announcement.value.id &&
         before.announcements[i].owner == e.owner && before.announcements[i].state == Unresolved &&
         before.announcements[i].revision == added.announcement.value.revision) &&
    (if added.announcement.None? then next.announcements == before.announcements
     else AnnouncementAdvances(before.announcements, next.announcements, added.announcement.value.id,
                               AnnouncementBound, false, Some(added.taskId)))
  }

  predicate DisposeAllowed(before: Control, next: Control, e: Event) {
    HasBinding(before.bindings, e.itemId) &&
    var was := before.bindings[BindingIndex(before.bindings, e.itemId)];
    var settled := e.kind == SettleEvent;
    was.owner == e.owner && was.state == Bound &&
    BindingBecomes(before.bindings, next.bindings, was.taskId, if settled then Settled else Released, was.terminal) &&
    (if was.announcement.None? then next.announcements == before.announcements
     else AnnouncementAdvances(before.announcements, next.announcements, was.announcement.value.id,
                               if settled then Linked else Unresolved, settled, None))
  }

  predicate TerminalAllowed(before: Control, next: Control, e: Event) {
    HasBinding(before.bindings, e.itemId) && HasBinding(next.bindings, e.itemId) && next.announcements == before.announcements &&
    var was := before.bindings[BindingIndex(before.bindings, e.itemId)];
    var terminal := next.bindings[BindingIndex(next.bindings, e.itemId)].terminal;
    was.owner == e.owner && was.state == Settled && terminal.Some? &&
    BindingBecomes(before.bindings, next.bindings, was.taskId, Ended, terminal)
  }

  predicate SubmissionAllowed(before: Control, next: Control, e: Event) {
    match e.kind
    case Announced => AnnounceAllowed(before, next, e)
    case AnnouncementWithdrawn => WithdrawAllowed(before, next, e)
    case BindEvent => BindAllowed(before, next, e)
    case SettleEvent => DisposeAllowed(before, next, e)
    case ReleaseEvent => DisposeAllowed(before, next, e)
    case TerminalEvent => TerminalAllowed(before, next, e)
  }

  // ---------- one recovery ----------

  function RecoveredAs(w: Work, r: Recovery): Work
    requires Ledger.TouchesWork(r.action)
  {
    var expected := w.(revision := w.revision + 1,
                       grants := if w.grants.Some? then Some([]) else None,
                       watches := if w.watches.Some? then Some([]) else None);
    match r.action
    case AdoptWork(p) => expected.(owner := p, readers := Without(w.readers, p))
    case RecoverCloseWork => expected.(state := Closed)
  }

  predicate WorkRecoverable(w: Work, r: Recovery) {
    Ledger.TouchesWork(r.action) && w.state == Active && w.owner == r.expectedOwner && w.revision == r.expectedRevision &&
    (r.action.AdoptWork? ==> r.action.newOwner != w.owner)
  }

  predicate WorkRecoveryAllowed(before: Control, next: Control, r: Recovery) {
    Ledger.TouchesWork(r.action) && HasWork(before.works, r.itemId) && before.cases == next.cases &&
    var i := WorkIndex(before.works, r.itemId);
    var w := before.works[i];
    WorkRecoverable(w, r) &&
    |next.works| == |before.works| &&
    forall k :: 0 <= k < |before.works| ==>
      next.works[k] == (if before.works[k].id == w.id then RecoveredAs(w, r) else before.works[k])
  }

  function RecoveredCaseAs(c: Case, r: Recovery): Case
    requires !Ledger.TouchesWork(r.action)
  {
    var expected := c.(revision := c.revision + 1);
    match r.action
    case RecoverSettleCase(_) => expected.(effect := NotStarted)
    case RecoverReleaseCase(_) => expected.(state := Closed)
    case AdoptCase(p, _) => expected.(lead := p, generation := c.generation + 1, members := AddMember(c.members, p))
  }

  predicate CaseRecoverable(c: Case, r: Recovery) {
    !Ledger.TouchesWork(r.action) && c.state == Active && c.lead == r.expectedOwner && c.revision == r.expectedRevision &&
    c.generation == Ledger.ActionGeneration(r.action) &&
    (if r.action.RecoverSettleCase? then c.effect == Possible else c.effect == NotStarted) &&
    (r.action.AdoptCase? ==> r.action.newLead != c.lead)
  }

  predicate CaseRecoveryAllowed(before: Control, next: Control, r: Recovery) {
    !Ledger.TouchesWork(r.action) && HasCase(before.cases, r.itemId) && before.works == next.works &&
    var c := before.cases[CaseIndex(before.cases, r.itemId)];
    CaseRecoverable(c, r) &&
    |next.cases| == |before.cases| &&
    forall k :: 0 <= k < |before.cases| ==>
      next.cases[k] == (if before.cases[k].id == c.id then RecoveredCaseAs(c, r) else before.cases[k])
  }

  predicate RecoveryAllowed(before: Control, next: Control, r: Recovery) {
    r.epoch == before.epoch && before.notes == next.notes && before.receipts == next.receipts &&
    (WorkRecoveryAllowed(before, next, r) || CaseRecoveryAllowed(before, next, r))
  }

  // ---------- the whole relation ----------

  predicate SchemaAllowed(before: Control, next: Control, action: Action) {
    next.schema == before.schema ||
    (next.schema == MANAGED_SCHEMA && action == ActRegisterTaskWork) ||
    (next.schema == GRANT_SCHEMA && action == ActGrantSource) ||
    (next.schema == WATCH_SCHEMA && action == ActWatchSource) ||
    (next.schema == OBSERVED_SCHEMA && (action == ActClaimTarget || action == ActPostNote))
  }

  predicate EnrollmentAllowed(before: Control, next: Control, receipt: Receipt) {
    receipt.action == ActRegisterTaskWork ==>
      next.schema >= MANAGED_SCHEMA && |next.works| == |before.works| + 1 && before.works <= next.works &&
      before.cases == next.cases && before.notes == next.notes &&
      var added := Last(next.works);
      added.managed.Some? && added.owner == receipt.owner && added.revision == 1 && added.state == Active &&
      added.readers == [] && receipt.itemId == added.id
  }

  predicate SourceChangeAllowed(before: Control, next: Control, receipt: Receipt) {
    receipt.action == ActGrantSource || receipt.action == ActWatchSource ==>
      next.schema >= (if receipt.action == ActWatchSource then WATCH_SCHEMA else GRANT_SCHEMA) &&
      before.cases == next.cases && before.notes == next.notes && |next.works| == |before.works| &&
      HasWork(before.works, receipt.itemId)
  }

  predicate Identity(before: Control, next: Control) {
    before.epoch == next.epoch && before.repository == next.repository && before.limits == next.limits &&
    next.revision == before.revision + 1 && before.schema <= next.schema
  }

  predicate LedgersExtend(before: Control, next: Control) {
    Extends(before.recoveries, next.recoveries) && Extends(before.events, next.events) && Extends(before.receipts, next.receipts)
  }

  /** The recovery relation already fixed this record's whole change. */
  predicate Recovers(recovered: Option<Recovery>, onWork: bool, id: Id) {
    recovered.Some? && Ledger.TouchesWork(recovered.value.action) == onWork && recovered.value.itemId == id
  }

  predicate RecordsKept(before: Control, next: Control, receipt: Option<Receipt>, recovered: Option<Recovery>) {
    (forall i :: 0 <= i < |before.works| ==> WorkKept(before, next, before.works[i], receipt, recovered)) &&
    (forall i :: 0 <= i < |before.cases| ==> CaseKept(before, next, before.cases[i], receipt, recovered)) &&
    (forall i :: 0 <= i < |before.notes| ==> NoteKept(next, before.notes[i]))
  }

  predicate WorkKept(before: Control, next: Control, was: Work, receipt: Option<Receipt>, recovered: Option<Recovery>) {
    HasWork(next.works, was.id) &&
    (Recovers(recovered, true, was.id) || WorkAllowed(was, next.works[WorkIndex(next.works, was.id)], receipt))
  }

  predicate CaseKept(before: Control, next: Control, was: Case, receipt: Option<Receipt>, recovered: Option<Recovery>) {
    HasCase(next.cases, was.id) &&
    (Recovers(recovered, false, was.id) || CaseAllowed(before, next, was, next.cases[CaseIndex(next.cases, was.id)], receipt))
  }

  predicate NoteKept(next: Control, was: Note) {
    HasNote(next.notes, was.id) && NoteAllowed(was, next.notes[NoteIndex(next.notes, was.id)])
  }

  predicate OrdinaryStep(before: Control, next: Control) {
    |next.receipts| == |before.receipts| + 1 && |next.recoveries| == |before.recoveries| && |next.events| == |before.events| &&
    before.announcements == next.announcements && before.bindings == next.bindings &&
    var receipt := Last(next.receipts);
    SchemaAllowed(before, next, receipt.action) && EnrollmentAllowed(before, next, receipt) &&
    SourceChangeAllowed(before, next, receipt) && RecordsKept(before, next, Some(receipt), None)
  }

  predicate RecoveryStep(before: Control, next: Control) {
    |next.recoveries| == |before.recoveries| + 1 && |next.receipts| == |before.receipts| && |next.events| == |before.events| &&
    before.announcements == next.announcements && before.bindings == next.bindings &&
    var receipt := Last(next.recoveries);
    next.schema >= 2 && receipt.revision == next.revision &&
    RecoveryAllowed(before, next, receipt.recovery) && RecordsKept(before, next, None, Some(receipt.recovery))
  }

  predicate SubmissionStep(before: Control, next: Control) {
    |next.events| == |before.events| + 1 && |next.receipts| == |before.receipts| && |next.recoveries| == |before.recoveries| &&
    before.works == next.works && before.cases == next.cases && before.notes == next.notes &&
    var e := Last(next.events);
    next.schema >= SUBMISSION_SCHEMA && e.revision == next.revision &&
    SubmissionAllowed(before, next, e) && RecordsKept(before, next, None, None)
  }

  /** The relation a publication is checked against. */
  predicate Allowed(before: Control, next: Control) {
    Identity(before, next) && LedgersExtend(before, next) &&
    (OrdinaryStep(before, next) || RecoveryStep(before, next) || SubmissionStep(before, next))
  }
}
