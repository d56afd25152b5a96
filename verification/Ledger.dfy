/** The mutating operations of the coordination control: each clones the current state, changes it,
    acknowledges the change in one ledger and publishes the result, or refuses. */
module Ledger {
  import opened ControlTypes
  import opened Records
  import opened PeerRecords
  import L = Lineage
  import opened Publications
  import Submissions

  // ---------- commands on works ----------

  predicate WorkspaceHeld(ws: seq<Work>, workspaceId: string) {
    exists i :: 0 <= i < |ws| && ws[i].state == Active && ws[i].workspaceId == workspaceId
  }

  function OwnWork(s: Control, parent: ParentId, id: Id, revision: nat): (r: Result<nat>)
    ensures r.Ok? ==> r.value < |s.works| && r.value == WorkIndex(s.works, id)
    ensures r.Ok? ==> s.works[r.value].owner == parent && s.works[r.value].revision == revision
  {
    if !VisibleWork(s, parent, id) then Err(NotFound)
    else
      var i := WorkIndex(s.works, id);
      if s.works[i].owner != parent then Err(Forbidden)
      else if s.works[i].revision != revision then Err(StaleRevision)
      else Ok(i)
  }

  function Cleared<T>(list: Option<seq<T>>): Option<seq<T>> {
    if list.Some? then Some([]) else None
  }

  function StampGrants(recipients: seq<Recipient>, revision: nat): (r: seq<Grant>)
    ensures |r| == |recipients|
    ensures forall i :: 0 <= i < |r| ==> r[i] == Grant(recipients[i], revision)
  {
    seq(|recipients|, i requires 0 <= i < |recipients| => Grant(recipients[i], revision))
  }

  function RestampGrants(grants: seq<Grant>, revision: nat): (r: seq<Grant>)
    ensures |r| == |grants|
    ensures forall i :: 0 <= i < |r| ==> r[i] == Grant(grants[i].recipient, revision)
  {
    seq(|grants|, i requires 0 <= i < |grants| => Grant(grants[i].recipient, revision))
  }

  function StampWatches(watchers: seq<Watcher>, revision: nat): (r: seq<Watch>)
    ensures |r| == |watchers|
    ensures forall i :: 0 <= i < |r| ==> r[i] == Watch(watchers[i], revision)
  {
    seq(|watchers|, i requires 0 <= i < |watchers| => Watch(watchers[i], revision))
  }

  function WatchedRegions(watchers: seq<Watcher>): nat {
    if watchers == [] then 0 else |watchers[0].regions| + WatchedRegions(watchers[1..])
  }

  predicate GrantedAt(grants: seq<Grant>, parent: ParentId, revision: nat) {
    exists k :: 0 <= k < |grants| && grants[k].recipient.parent == parent && grants[k].workRevision == revision
  }

  predicate HasCurrentGrant(w: Work, parent: ParentId) {
    w.grants.Some? && GrantedAt(w.grants.value, parent, w.revision)
  }

  function RegisteredWork(parent: ParentId, command: Command, newId: Id): Work
    requires command.RegisterTaskWork? || command.RegisterWork?
  {
    if command.RegisterTaskWork? then
      Work(command.managed.taskId, parent, command.workspaceId, 1, Active, command.inputOid, command.objectFormat,
           command.intent, command.areas, [], Some(command.managed), None, None)
    else
      Work(newId, parent, command.workspaceId, 1, Active, command.inputOid, command.objectFormat,
           command.intent, command.areas, command.readers, None, None, None)
  }

  function Register(s: Control, parent: ParentId, command: Command, newId: Id): Result<Work>
    requires command.RegisterTaskWork? || command.RegisterWork?
  {
    if command.RegisterTaskWork? && HasWork(s.works, command.managed.taskId) then Err(TaskRegistered)
    else if WorkspaceHeld(s.works, command.workspaceId) then Err(WorkspaceInUse)
    else if command.RegisterWork? && parent in command.readers then Err(Invalid)
    else Ok(RegisteredWork(parent, command, newId))
  }

  predicate IsWorkChange(command: Command) {
    command.ShareWork? || command.GrantSource? || command.WatchSource? || command.CloseWork?
  }

  /** The owner's change to one work; every change advances its revision and restamps or drops its grants. */
  function ChangedWork(w: Work, parent: ParentId, command: Command): Result<Work>
    requires IsWorkChange(command)
  {
    var next := w.revision + 1;
    match command
    case ShareWork(_, _, _, readers) =>
      if parent in readers then Err(Invalid)
      else Ok(w.(readers := readers, grants := Cleared(w.grants), watches := Cleared(w.watches), revision := next))
    case GrantSource(_, _, _, recipients) =>
      if w.state != Active then Err(WorkClosed)
      else if exists k :: 0 <= k < |recipients| && recipients[k].parent == parent then Err(Invalid)
      else Ok(w.(grants := Some(StampGrants(recipients, next)), watches := Cleared(w.watches), revision := next))
    case WatchSource(_, _, _, watchers) =>
      if w.state != Active then Err(WorkClosed)
      else if exists k :: 0 <= k < |watchers| && watchers[k].parent != parent && !HasCurrentGrant(w, watchers[k].parent) then Err(Forbidden)
      else if WatchedRegions(watchers) > MAX_REGIONS then Err(Invalid)
      else Ok(w.(watches := Some(StampWatches(watchers, next)), revision := next,
                 grants := if w.grants.Some? then Some(RestampGrants(w.grants.value, next)) else None))
    case CloseWork(_, _, _) =>
      if w.state == Closed then Err(WorkClosed)
      else Ok(w.(state := Closed, grants := Cleared(w.grants), watches := Cleared(w.watches), revision := next))
  }

  // ---------- commands on notes ----------

  function NoteAudience(s: Control, subject: Subject): Option<seq<ParentId>>
    requires subject.kind == WorkSubject ==> HasWork(s.works, subject.id)
    requires subject.kind == CaseSubject ==> HasCase(s.cases, subject.id)
  {
    match subject.kind
    case WorkSubject =>
      var w := s.works[WorkIndex(s.works, subject.id)];
      Some([w.owner] + Without(w.readers, w.owner))
    case CaseSubject => CaseAudience(s.cases[CaseIndex(s.cases, subject.id)])
  }

  function CaseAudience(item: Case): Option<seq<ParentId>> {
    if item.origin.Some? then Some(item.members) else None
  }

  function PostedNote(s: Control, parent: ParentId, command: Command, newId: Id): Result<Note>
    requires command.PostNote?
  {
    if !SubjectVisible(s, parent, command.subject) then Err(NotFound)
    else if !(forall k :: 0 <= k < |command.parties| ==> SubjectVisible(s, command.parties[k], command.subject)) then Err(NotFound)
    else
      var refs := if command.subject.kind == WorkSubject then [command.subject.id]
                  else InputIds(s.cases[CaseIndex(s.cases, command.subject.id)].inputs);
      Ok(Note(newId, command.subject, parent, command.noteKind, command.text, command.bytes, refs,
              AsParties(command.parties), [], false, NoteAudience(s, command.subject)))
  }

  /** Only the author withdraws; only a named party acknowledges, once, while the record is current. */
  function AnsweredNote(s: Control, parent: ParentId, i: nat, withdraw: bool): Result<Note>
    requires i < |s.notes|
  {
    var n := s.notes[i];
    if withdraw && n.author == parent then
      if n.withdrawn then Err(NoteWithdrawn) else Ok(n.(withdrawn := true))
    else if !NoteReadable(s, parent, n) then Err(NotFound)
    else if withdraw then Err(Forbidden)
    else if n.withdrawn then Err(NoteWithdrawn)
    else if n.kind != AgreementProposal || ParentParty(parent) !in n.parties then Err(Forbidden)
    else
      var allowed := if n.text.PeerText? then PeerAckAllowed(s, i, false) else Ok(());
      if allowed.Err? then Err(allowed.error)
      else if ParentParty(parent) in n.acknowledged then Err(AlreadyAcknowledged)
      else Ok(n.(acknowledged := n.acknowledged + [ParentParty(parent)]))
  }

  // ---------- commands on cases ----------

  predicate TargetHeld(cs: seq<Case>, target: string) {
    exists i :: 0 <= i < |cs| && cs[i].target == target && cs[i].state == Active
  }

  /** The greatest generation a target has had, zero if it was never claimed. */
  function GreatestGeneration(cs: seq<Case>, target: string): (g: nat)
    ensures forall i :: 0 <= i < |cs| && cs[i].target == target ==> cs[i].generation <= g
    ensures g > 0 ==> exists i :: 0 <= i < |cs| && cs[i].target == target && cs[i].generation == g
  {
    if cs == [] then 0
    else
      var rest := GreatestGeneration(cs[1..], target);
      assert forall i :: 1 <= i < |cs| ==> cs[i] == cs[1..][i - 1];
      if cs[0].target == target && cs[0].generation > rest then cs[0].generation else rest
  }

  function ClaimedCase(s: Control, parent: ParentId, command: Command, observed: bool, newId: Id): Case
    requires command.ClaimTarget?
  {
    Case(newId, command.target, parent, [parent] + Without(command.members, parent), 1,
         GreatestGeneration(s.cases, command.target) + 1, Active, NotStarted, None, [],
         if observed then Some(PendingOrigin) else None, None, None, None)
  }

  function OwnCase(s: Control, parent: ParentId, id: Id, revision: nat, generation: nat): (r: Result<nat>)
    ensures r.Ok? ==> r.value < |s.cases| && r.value == CaseIndex(s.cases, id)
    ensures r.Ok? ==> s.cases[r.value].lead == parent && parent in s.cases[r.value].members &&
                      s.cases[r.value].revision == revision && s.cases[r.value].generation == generation &&
                      s.cases[r.value].state == Active
  {
    var i := CaseIndex(s.cases, id);
    if i == |s.cases| || parent !in s.cases[i].members then Err(NotFound)
    else if s.cases[i].lead != parent then Err(Forbidden)
    else if s.cases[i].generation != generation then Err(StaleGeneration)
    else if s.cases[i].revision != revision then Err(StaleRevision)
    else if s.cases[i].state != Active then Err(CaseClosed)
    else Ok(i)
  }

  predicate IsCaseChange(command: Command) {
    command.SelectInputs? || command.ReleaseCase? || command.BeginExternal? || command.SettleExternal? || command.TransferCase?
  }

  predicate InputsVisible(s: Control, members: seq<ParentId>, inputs: seq<Selection>) {
    forall k, m :: 0 <= k < |inputs| && 0 <= m < |members| ==> VisibleWork(s, members[m], inputs[k].workId)
  }

  /** The lead's change to one case; every change advances its revision, a handoff also its generation. */
  function ChangedCase(s: Control, item: Case, parent: ParentId, command: Command, observed: bool): Result<Case>
    requires IsCaseChange(command)
  {
    var next := item.revision + 1;
    match command
    case SelectInputs(_, _, _, _, targetOid, inputs) =>
      if item.effect != NotStarted then Err(EffectUnresolved)
      else if (item.origin == Some(PendingOrigin)) != observed then Err(ObservedUnavailable)
      else if !InputsVisible(s, item.members, inputs) then Err(NotFound)
      else Ok(item.(inputs := inputs, targetOid := Some(targetOid), revision := next,
                    origin := if observed then Some(SelectedOrigin) else item.origin))
    case TransferCase(_, _, _, _, newLead) =>
      if item.effect != NotStarted then Err(EffectUnresolved)
      else if newLead == parent || newLead !in item.members then Err(Forbidden)
      else if !CanReadCase(s, newLead, item) then Err(NotFound)
      else Ok(item.(lead := newLead, generation := item.generation + 1, revision := next))
    case BeginExternal(_, _, _, _) =>
      if item.effect != NotStarted then Err(EffectUnresolved)
      else if !CanReadCase(s, parent, item) then Err(NotFound)
      else if item.targetOid.None? || item.inputs == [] then Err(InputsRequired)
      else Ok(item.(effect := Possible, revision := next))
    case SettleExternal(_, _, _, _) =>
      if item.effect != Possible then Err(NoEffect)
      else Ok(item.(effect := NotStarted, revision := next))
    case ReleaseCase(_, _, _, _) =>
      if item.effect != NotStarted then Err(EffectUnresolved)
      else Ok(item.(state := Closed, revision := next))
  }

  // ---------- applying one command to the cloned state ----------

  datatype Applied = Applied(change: Change, entity: Subject, itemId: Id)

  function Apply(s: Control, parent: ParentId, command: Command, observed: bool, newId: Id): Result<Applied> {
    if command.RegisterTaskWork? || command.RegisterWork? then
      var w :- Register(s, parent, command, newId);
      Ok(Applied(AddWork(w), Subject(WorkSubject, w.id), w.id))
    else if IsWorkChange(command) then
      var i :- OwnWork(s, parent, command.workId, command.expectedRevision);
      var w :- ChangedWork(s.works[i], parent, command);
      Ok(Applied(SetWork(i, w), Subject(WorkSubject, w.id), w.id))
    else if command.PostNote? then
      var n :- PostedNote(s, parent, command, newId);
      Ok(Applied(AddNote(n), command.subject, newId))
    else if command.AckNote? || command.WithdrawNote? then
      var i := NoteIndex(s.notes, command.noteId);
      if i == |s.notes| then Err(NotFound)
      else
        var n :- AnsweredNote(s, parent, i, command.WithdrawNote?);
        Ok(Applied(SetNote(i, n), n.subject, n.id))
    else if command.ClaimTarget? then
      if TargetHeld(s.cases, command.target) then Err(TargetInUse)
      else Ok(Applied(AddCase(ClaimedCase(s, parent, command, observed, newId)), Subject(CaseSubject, newId), newId))
    else
      var i :- OwnCase(s, parent, command.caseId, command.expectedRevision, command.generation);
      var c :- ChangedCase(s, s.cases[i], parent, command, observed);
      Ok(Applied(SetCase(i, c), Subject(CaseSubject, c.id), c.id))
  }

  function ActionOf(command: Command): Action {
    match command
    case RegisterTaskWork(_, _, _, _, _, _, _) => ActRegisterTaskWork
    case RegisterWork(_, _, _, _, _, _, _) => ActRegisterWork
    case ShareWork(_, _, _, _) => ActShareWork
    case GrantSource(_, _, _, _) => ActGrantSource
    case WatchSource(_, _, _, _) => ActWatchSource
    case CloseWork(_, _, _) => ActCloseWork
    case PostNote(_, _, _, _, _, _) => ActPostNote
    case AckNote(_, _) => ActAckNote
    case WithdrawNote(_, _) => ActWithdrawNote
    case ClaimTarget(_, _, _) => ActClaimTarget
    case SelectInputs(_, _, _, _, _, _) => ActSelectInputs
    case ReleaseCase(_, _, _, _) => ActReleaseCase
    case BeginExternal(_, _, _, _) => ActBeginExternal
    case SettleExternal(_, _, _, _) => ActSettleExternal
    case TransferCase(_, _, _, _, _) => ActTransferCase
  }

  /** The storage version a command needs; storage never moves backwards. */
  function CommandSchema(s: Control, command: Command, observed: bool): nat {
    if observed && command.ClaimTarget? then OBSERVED_SCHEMA
    else if command.PostNote? && command.subject.kind == WorkSubject && s.schema < OBSERVED_SCHEMA then OBSERVED_SCHEMA
    else if command.WatchSource? && s.schema < WATCH_SCHEMA then WATCH_SCHEMA
    else if command.GrantSource? && s.schema < GRANT_SCHEMA then GRANT_SCHEMA
    else if command.RegisterTaskWork? && s.schema < SUBMISSION_SCHEMA then MANAGED_SCHEMA
    else s.schema
  }

  /** The change with the one receipt that acknowledges it. */
  function Acknowledge(s: Control, change: Change, schema: nat, owner: ParentId, key: Key, request: Request,
                       action: Action, entity: Subject, itemId: Id): Publication {
    Ordinary(change, schema, Receipt(owner, key, request, s.revision + 1, action, entity, itemId))
  }

  // ---------- guards of an ordinary command ----------

  /** What command decoding already refuses: areas of a task that declared none, parties on anything but an agreement,
      and repeated list entries. */
  predicate Decodable(command: Command) {
    match command
    case RegisterTaskWork(_, _, _, _, _, areas, managed) => managed.areasDeclared || areas == []
    case RegisterWork(_, _, _, _, _, _, readers) => Distinct(readers)
    case ShareWork(_, _, _, readers) => Distinct(readers)
    case PostNote(_, _, kind, _, _, parties) => (kind == AgreementProposal <==> parties != []) && Distinct(parties)
    case ClaimTarget(_, _, members) => Distinct(members)
    case SelectInputs(_, _, _, _, _, inputs) => Distinct(InputIds(inputs))
    case _ => true
  }

  /** A task application admitted into the case whose outcome is neither applied nor rejected. */
  predicate PendingUnsettled(s: Control, caseId: Id, r: Receipt) {
    r.key.WorkerKey? && r.key.part == PendingPart && NoteInCase(s.notes, r.itemId, caseId) &&
    !OutcomeIs(s, r, {StatusApplied, StatusRejected})
  }

  predicate NoteInCase(ns: seq<Note>, noteId: Id, caseId: Id) {
    HasNote(ns, noteId) && ns[NoteIndex(ns, noteId)].subject == Subject(CaseSubject, caseId)
  }

  /** The retained outcome of the same application key, if any, has one of these statuses. */
  predicate OutcomeIs(s: Control, r: Receipt, statuses: set<ApplicationStatus>)
    requires r.key.WorkerKey?
  {
    var outcome := ReceiptFor(s.receipts, r.owner, r.key.(part := OutcomePart));
    outcome.Some? && HasNote(s.notes, outcome.value.itemId) &&
    var n := s.notes[NoteIndex(s.notes, outcome.value.itemId)];
    n.text.PeerText? && n.text.record.Application? && n.text.record.status in statuses
  }

  predicate CasePendingUnsettled(s: Control, caseId: Id) {
    exists i :: 0 <= i < |s.receipts| && PendingUnsettled(s, caseId, s.receipts[i])
  }

  datatype KeyStatus = FreshKey | RecordedKey(receipt: Receipt) | ConflictingKey

  /** One key names one request across all three ledgers. */
  function OrdinaryKey(s: Control, owner: ParentId, key: Key, request: Request): KeyStatus {
    if RecoveryKeyUsed(s.recoveries, owner, key) || EventKeyUsed(s.events, owner, key) then ConflictingKey
    else
      match ReceiptFor(s.receipts, owner, key)
      case None => FreshKey
      case Some(r) => if r.request == request then RecordedKey(r) else ConflictingKey
  }

  function CommandAdmitted(s: Control, owner: ParentId, command: Command): Result<()> {
    if (command.AckNote? || command.WithdrawNote?) && WorkerPosted(s.receipts, command.noteId) then Err(Forbidden)
    else if command.PostNote? then
      match command.text {
        case PlainText(_) => Ok(())
        case UnreadableRecord(_) => Err(PeerInvalid)
        case PeerText(r) => PeerPostAllowed(s, owner, command.subject, command.noteKind, command.parties, r, false)
      }
    else Ok(())
  }

  // ---------- the publications ----------

  datatype Answer = ReceiptAnswer(receipt: Receipt) | RecoveryAnswer(recovery: RecoveryReceipt)
                  | AnnouncementAnswer(announcement: Announcement) | BindingAnswer(binding: Binding)

  /** `Candidate` is a publication that still has to pass the capacity check. */
  datatype Outcome = Refused(error: Error) | Recorded(answer: Answer) | Candidate(publication: Publication)

  /** The body of an ordinary command once its key is known to be fresh. */
  function CommandBody(s: Control, owner: ParentId, command: Command, observed: bool, newId: Id): Result<Publication> {
    var _ :- CommandAdmitted(s, owner, command);
    var applied :- Apply(s, owner, command, observed, newId);
    Ok(Acknowledge(s, applied.change, CommandSchema(s, command, observed), owner, command.key,
                   CommandRequest(owner, command), ActionOf(command), applied.entity, applied.itemId))
  }

  function AsOutcome(r: Result<Publication>): Outcome {
    match r case Ok(p) => Candidate(p) case Err(e) => Refused(e)
  }

  function ExecuteCommand(s: Control, owner: ParentId, command: Command, observed: bool, newId: Id): Outcome {
    if !Decodable(command) then Refused(Invalid)
    else if command.key.WorkerKey? then Refused(Forbidden)
    else if command.ReleaseCase? && CasePendingUnsettled(s, command.caseId) then Refused(EffectUnresolved)
    else
      match OrdinaryKey(s, owner, command.key, CommandRequest(owner, command))
      case ConflictingKey => Refused(KeyConflict)
      case RecordedKey(r) => Recorded(ReceiptAnswer(r))
      case FreshKey => AsOutcome(CommandBody(s, owner, command, observed, newId))
  }

  // ---------- elected observation ----------

  predicate HasApplicationNote(ns: seq<Note>, caseId: Id) {
    exists i :: 0 <= i < |ns| && ns[i].subject == Subject(CaseSubject, caseId) && ns[i].text.PeerText? && ns[i].text.record.Application?
  }

  /** Selected and added works are active managed works on one input commit and object format. */
  predicate CompatibleSource(added: Work, ws: seq<Work>, workId: Id) {
    HasWork(ws, workId) &&
    var w := ws[WorkIndex(ws, workId)];
    w.managed.Some? && w.state == Active && w.inputOid == added.inputOid && w.objectFormat == added.objectFormat
  }

  function NonReaders(members: seq<ParentId>, w: Work): (r: seq<ParentId>)
    ensures forall p :: p in r <==> p in members && !CanReadWork(p, w)
  {
    if members == [] then []
    else (if CanReadWork(members[0], w) then [] else [members[0]]) + NonReaders(members[1..], w)
  }

  function DeltaFor(ws: seq<Work>, workId: Id, members: seq<ParentId>): Delta
    requires HasWork(ws, workId) && ws[WorkIndex(ws, workId)].managed.Some?
  {
    var w := ws[WorkIndex(ws, workId)];
    Delta(w.id, w.revision, w.managed.value.controlGeneration, w.areas, NonReaders(members, w))
  }

  function ExtendedCase(ws: seq<Work>, item: Case, added: Work): (r: Case)
    requires HasWork(ws, added.id) && ws[WorkIndex(ws, added.id)].managed.Some?
    requires forall k :: 0 <= k < |item.inputs| ==> HasWork(ws, item.inputs[k].workId) && ws[WorkIndex(ws, item.inputs[k].workId)].managed.Some?
  {
    var members := AddMember(item.members, added.owner);
    var inputs := item.inputs + [Selection(added.id, added.inputOid)];
    item.(members := members, inputs := inputs, pending := Some(InputIds(inputs)), observed := Some([]),
          visibility := Some(seq(|inputs|, k requires 0 <= k < |inputs| => DeltaFor(ws, inputs[k].workId, members))),
          revision := item.revision + 1)
  }

  function ExtendBody(s: Control, owner: ParentId, key: Key, x: Extension): Result<Publication> {
    var i :- OwnCase(s, owner, x.caseId, x.expectedRevision, x.generation);
    var item := s.cases[i];
    if item.origin != Some(SelectedOrigin) || item.effect != NotStarted then Err(ObservedUnavailable)
    else if HasApplicationNote(s.notes, item.id) then Err(EffectUnresolved)
    else if !(forall k :: 0 <= k < |item.inputs| ==> VisibleWork(s, owner, item.inputs[k].workId)) then Err(NotFound)
    else if !HasWork(s.works, x.newWorkId) then Err(NotFound)
    else if Selects(item, x.newWorkId) then Err(ObservedDuplicate)
    else
      var added := s.works[WorkIndex(s.works, x.newWorkId)];
      if added.managed.None? || added.state != Active || item.inputs == [] || Some(x.targetOid) != item.targetOid ||
         !(forall k :: 0 <= k < |item.inputs| ==> CompatibleSource(added, s.works, item.inputs[k].workId))
      then Err(ScopeUnsupported)
      else if |AddMember(item.members, added.owner)| > MAX_PARTIES then Err(Capacity)
      else
        Ok(Acknowledge(s, SetCase(i, ExtendedCase(s.works, item, added)), s.schema, owner, key,
                       ExtensionRequest(owner, key, x), ActExtendCase, Subject(CaseSubject, item.id), item.id))
  }

  function ExtendCase(s: Control, owner: ParentId, key: Key, x: Extension): Outcome {
    match ReceiptFor(s.receipts, owner, key)
    case Some(r) =>
      if r.request == ExtensionRequest(owner, key, x) && r.action == ActExtendCase then Recorded(ReceiptAnswer(r)) else Refused(KeyConflict)
    case None =>
      if RecoveryKeyUsed(s.recoveries, owner, key) || EventKeyUsed(s.events, owner, key) then Refused(KeyConflict)
      else AsOutcome(ExtendBody(s, owner, key, x))
  }

  function ObserveBody(s: Control, owner: ParentId, key: Key, o: Observation): Result<Publication> {
    var i := CaseIndex(s.cases, o.caseId);
    if i == |s.cases| then Err(DeliveryStale)
    else
      var item := s.cases[i];
      if item.state != Active || item.lead != owner || item.revision != o.caseRevision || item.generation != o.generation ||
         item.origin != Some(SelectedOrigin) || item.pending.None? || o.recipientWorkId !in item.pending.value
      then Err(DeliveryStale)
      else
        var seen := if item.observed.Some? then item.observed.value else [];
        var changed := item.(pending := Some(Without(item.pending.value, o.recipientWorkId)),
                             observed := Some(seen + [Observed(o.recipientWorkId, o.digest)]));
        Ok(Acknowledge(s, SetCase(i, changed), s.schema, owner, key, ObservationRequest(owner, key, o),
                       ActObserveDelivery, Subject(CaseSubject, item.id), item.id))
  }

  /** The guard is the epoch and revision at which the delivery evidence was checked. */
  function ObserveDelivery(s: Control, owner: ParentId, key: Key, o: Observation, guardEpoch: Id, guardRevision: nat): Outcome {
    match ReceiptFor(s.receipts, owner, key)
    case Some(r) =>
      if r.request == ObservationRequest(owner, key, o) && r.action == ActObserveDelivery then Recorded(ReceiptAnswer(r)) else Refused(KeyConflict)
    case None =>
      if s.epoch != guardEpoch || s.revision != guardRevision then Refused(DeliveryStale)
      else AsOutcome(ObserveBody(s, owner, key, o))
  }

  // ---------- task-bound workers ----------

  predicate IsActorWork(w: Work, actor: WorkerActor) {
    w.managed.Some? && w.managed.value.taskId == actor.taskId && w.owner == actor.owner &&
    w.workspaceId == actor.workspaceId && w.managed.value.controlGeneration == actor.controlGeneration
  }

  predicate ActorBound(bs: seq<Binding>, actor: WorkerActor) {
    HasBinding(bs, actor.taskId) &&
    var b := bs[BindingIndex(bs, actor.taskId)];
    b.owner == actor.owner && b.sourceView == actor.sourceView && (b.state == Bound || b.state == Settled)
  }

  /** Every selected source is live managed work of a member, readable by the worker's owner. */
  predicate SelectedAuthority(s: Control, owner: ParentId, item: Case) {
    forall k :: 0 <= k < |item.inputs| ==>
      ActiveManaged(s.works, item.inputs[k].workId) && VisibleWork(s, owner, item.inputs[k].workId) &&
      s.works[WorkIndex(s.works, item.inputs[k].workId)].owner in item.members
  }

  /** The active case in which the task is a current managed participant. */
  function WorkerCase(s: Control, actor: WorkerActor): (r: Result<nat>)
    ensures r.Ok? ==> r.value < |s.cases| && r.value == CaseIndex(s.cases, actor.caseId) && s.cases[r.value].state == Active
    ensures r.Ok? ==> s.cases[r.value].inputs != []
    ensures r.Ok? ==> forall k :: 0 <= k < |s.cases[r.value].inputs| ==> HasWork(s.works, s.cases[r.value].inputs[k].workId)
  {
    var i := CaseIndex(s.cases, actor.caseId);
    if i == |s.cases| || actor.owner !in s.cases[i].members then Err(NotFound)
    else if s.cases[i].state != Active then Err(CaseClosed)
    else if !(exists k :: 0 <= k < |s.works| && IsActorWork(s.works[k], actor) && s.works[k].state == Active && Selects(s.cases[i], s.works[k].id))
    then Err(OperationForbidden)
    else if !CanReadCase(s, actor.owner, s.cases[i]) then Err(OperationForbidden)
    else if !ActorBound(s.bindings, actor) then Err(OperationForbidden)
    else if !SelectedAuthority(s, actor.owner, s.cases[i]) then Err(OperationForbidden)
    else Ok(i)
  }

  function ActorPrincipal(actor: WorkerActor): Party {
    TaskParty(actor.taskId, actor.owner, actor.controlGeneration, actor.workspaceId)
  }

  function MainKey(actor: WorkerActor, operation: string): Key { WorkerKey(actor.taskId, actor.runId, operation, MainPart) }

  /** A note posted into a case by a worker, shown to the members an observed case has at that moment. */
  function CaseNote(item: Case, author: ParentId, kind: NoteKind, record: PeerRecord, bytes: nat, parties: seq<Party>, newId: Id): Note {
    Note(newId, Subject(CaseSubject, item.id), author, kind, PeerText(record), bytes, InputIds(item.inputs), parties, [], false, CaseAudience(item))
  }

  /** The proposal a worker's note operation may touch: current, in this case, named to the task parties. */
  function WorkerNote(s: Control, item: Case, noteId: Id, parties: seq<Party>): (r: Result<nat>)
    ensures r.Ok? ==> r.value < |s.notes| && r.value == NoteIndex(s.notes, noteId) && s.notes[r.value].text.PeerText?
    ensures r.Ok? ==> s.notes[r.value].kind == AgreementProposal && s.notes[r.value].subject == Subject(CaseSubject, item.id)
  {
    var i := NoteIndex(s.notes, noteId);
    if i < |s.notes| && IsProposalNote(s.notes[i], item.id) && ProposalCurrent(s, i) && SameSet(s.notes[i].parties, parties)
    then Ok(i) else Err(OperationForbidden)
  }

  predicate PostedByRun(rs: seq<Receipt>, actor: WorkerActor, noteId: Id) {
    exists i :: 0 <= i < |rs| && rs[i].owner == actor.owner && rs[i].action == ActPostNote && rs[i].itemId == noteId &&
      rs[i].key.WorkerKey? && rs[i].key.taskId == actor.taskId && rs[i].key.runId == actor.runId
  }

  function WorkerBody(s: Control, actor: WorkerActor, key: Key, operation: WorkerOperation, bytes: nat, newId: Id): Result<Publication> {
    var c :- WorkerCase(s, actor);
    var item := s.cases[c];
    var parties := WorkerParties(s.works, item);
    var request := WorkerRequest(actor, key, operation);
    if parties.None? then Err(OperationForbidden)
    else
      match operation
      case WorkerPropose(proposal) =>
        if !proposal.Proposal? then Err(PeerInvalid)
        else
          var _ :- PeerPostAllowed(s, actor.owner, Subject(CaseSubject, item.id), AgreementProposal, item.members, proposal, true);
          var n := CaseNote(item, actor.owner, AgreementProposal, proposal, bytes, parties.value, newId);
          Ok(Acknowledge(s, AddNote(n), s.schema, actor.owner, key, request, ActPostNote, n.subject, newId))
      case WorkerAcknowledge(noteId) =>
        var i :- WorkerNote(s, item, noteId, parties.value);
        var n := s.notes[i];
        if n.withdrawn then Err(NoteWithdrawn)
        else if ActorPrincipal(actor) !in n.parties then Err(OperationForbidden)
        else
          var _ :- PeerAckAllowed(s, i, true);
          if ActorPrincipal(actor) in n.acknowledged then Err(AlreadyAcknowledged)
          else
            var changed := n.(acknowledged := n.acknowledged + [ActorPrincipal(actor)]);
            Ok(Acknowledge(s, SetNote(i, changed), s.schema, actor.owner, key, request, ActAckNote, n.subject, n.id))
      case WorkerWithdraw(noteId) =>
        var i :- WorkerNote(s, item, noteId, parties.value);
        if !PostedByRun(s.receipts, actor, noteId) then Err(OperationForbidden)
        else if s.notes[i].withdrawn then Err(NoteWithdrawn)
        else
          var changed := s.notes[i].(withdrawn := true);
          Ok(Acknowledge(s, SetNote(i, changed), s.schema, actor.owner, key, request, ActWithdrawNote, changed.subject, changed.id))
      case WorkerApply(_, _) => Err(Invalid)
  }

  /** Worker keys are reserved, so only the receipts can already hold one. */
  function WorkerStep(s: Control, actor: WorkerActor, operationKey: string, operation: WorkerOperation, bytes: nat, newId: Id): Outcome {
    var key := MainKey(actor, operationKey);
    match WorkerCase(s, actor)
    case Err(e) => Refused(e)
    case Ok(_) =>
      match ReceiptFor(s.receipts, actor.owner, key)
      case Some(r) => if r.request == WorkerRequest(actor, key, operation) then Recorded(ReceiptAnswer(r)) else Refused(KeyConflict)
      case None => AsOutcome(WorkerBody(s, actor, key, operation, bytes, newId))
  }

  // ---------- task applications ----------

  function PendingKey(actor: WorkerActor, operation: string): Key { WorkerKey(actor.taskId, actor.runId, operation, PendingPart) }
  function OutcomeKey(actor: WorkerActor, operation: string): Key { WorkerKey(actor.taskId, actor.runId, operation, OutcomePart) }

  /** This task run's own current, fully acknowledged, readable proposal. */
  predicate ApplicableProposal(s: Control, actor: WorkerActor, item: Case, i: nat)
    requires i < |s.notes|
  {
    var n := s.notes[i];
    IsProposalNote(n, item.id) && n.text.record.readable && ProposalCurrent(s, i) &&
    L.Acknowledged(EntriesOf(s, item, n.text.record.evidence), i) &&
    var parties := WorkerParties(s.works, item);
    parties.Some? && SameSet(n.parties, parties.value) && PostedByRun(s.receipts, actor, n.id)
  }

  /** A retained application of the case, other than under this key, not recorded as rejected. */
  predicate UnresolvedApplication(s: Control, caseId: Id, owner: ParentId, ownKey: Key) {
    exists i :: 0 <= i < |s.receipts| && s.receipts[i].key.WorkerKey? && s.receipts[i].key.part == PendingPart &&
      NoteInCase(s.notes, s.receipts[i].itemId, caseId) && !(s.receipts[i].owner == owner && s.receipts[i].key == ownKey) &&
      !OutcomeIs(s, s.receipts[i], {StatusRejected})
  }

  predicate AdmittedHere(s: Control, caseId: Id, owner: ParentId, ownKey: Key) {
    exists i :: 0 <= i < |s.receipts| && s.receipts[i].owner == owner && s.receipts[i].key == ownKey &&
      NoteInCase(s.notes, s.receipts[i].itemId, caseId)
  }

  function ApplicationRecord(p: PeerRecord, applicationDigest: Digest, status: ApplicationStatus): PeerRecord
    requires p.Proposal?
  {
    Application(p.evidence, p.digest, applicationDigest, status)
  }

  function ApplicationPosted(s: Control, actor: WorkerActor, item: Case, key: Key, noteId: Id, record: PeerRecord, bytes: nat, newId: Id): Publication {
    var n := CaseNote(item, actor.owner, ResolutionUpdate, record, bytes, [], newId);
    Acknowledge(s, AddNote(n), s.schema, actor.owner, key,
                WorkerRequest(actor, key, WorkerApply(noteId, record)), ActPostNote, n.subject, newId)
  }

  datatype Admission = NotAdmitted(error: Error) | AlreadyAdmitted | Admits(publication: Publication)

  /** Admission of an application: at most one unresolved application per case. */
  function AdmitApplication(s: Control, actor: WorkerActor, operation: string, noteId: Id, applicationDigest: Digest,
                            bytes: nat, newId: Id): Admission {
    match WorkerCase(s, actor)
    case Err(e) => NotAdmitted(e)
    case Ok(c) =>
      var item := s.cases[c];
      var i := NoteIndex(s.notes, noteId);
      var key := PendingKey(actor, operation);
      if i == |s.notes| || !ApplicableProposal(s, actor, item, i) then NotAdmitted(OperationForbidden)
      else if UnresolvedApplication(s, item.id, actor.owner, key) then NotAdmitted(EffectUnresolved)
      else if AdmittedHere(s, item.id, actor.owner, key) then AlreadyAdmitted
      else Admits(ApplicationPosted(s, actor, item, key, noteId,
                                    ApplicationRecord(s.notes[i].text.record, applicationDigest, StatusPending), bytes, newId))
  }

  /** Publication of the outcome, against the case version captured at admission. */
  function PublishOutcome(s: Control, actor: WorkerActor, operation: string, noteId: Id, proposal: PeerRecord,
                          capturedRevision: nat, capturedGeneration: nat, applicationDigest: Digest,
                          status: ApplicationStatus, bytes: nat, newId: Id): Outcome
  {
    if !proposal.Proposal? then Refused(Invalid)
    else
      var key := OutcomeKey(actor, operation);
      var record := ApplicationRecord(proposal, applicationDigest, status);
      match ReceiptFor(s.receipts, actor.owner, key)
      case Some(r) => if r.request == WorkerRequest(actor, key, WorkerApply(noteId, record)) then Recorded(ReceiptAnswer(r)) else Refused(KeyConflict)
      case None =>
        var i := CaseIndex(s.cases, actor.caseId);
        if i == |s.cases| || s.cases[i].revision != capturedRevision || s.cases[i].generation != capturedGeneration ||
           !ReceiptKeyUsed(s.receipts, actor.owner, PendingKey(actor, operation)) then Refused(OperationStale)
        else Candidate(ApplicationPosted(s, actor, s.cases[i], key, noteId, record, bytes, newId))
  }

  // ---------- submissions and recovery ----------

  function SubmissionAnswer(s: Control, e: Event): Outcome {
    if e.kind == Announced || e.kind == AnnouncementWithdrawn then
      if HasAnnouncement(s.announcements, e.itemId) then Recorded(AnnouncementAnswer(s.announcements[AnnouncementIndex(s.announcements, e.itemId)]))
      else Refused(KeyConflict)
    else
      if HasBinding(s.bindings, e.itemId) then Recorded(BindingAnswer(s.bindings[BindingIndex(s.bindings, e.itemId)]))
      else Refused(KeyConflict)
  }

  function SubmitStep(s: Control, owner: ParentId, key: Key, input: SubmissionInput): Outcome {
    if key.WorkerKey? then Refused(Forbidden)
    else if ReceiptKeyUsed(s.receipts, owner, key) || RecoveryKeyUsed(s.recoveries, owner, key) then Refused(KeyConflict)
    else
      match EventFor(s.events, owner, key)
      case Some(e) => if e.request == SubmissionRequest(owner, key, input) then SubmissionAnswer(s, e) else Refused(KeyConflict)
      case None => AsOutcome(Submissions.Submit(s, owner, key, input))
  }

  predicate TouchesWork(a: RecoveryAction) { a.AdoptWork? || a.RecoverCloseWork? }

  function ActionGeneration(a: RecoveryAction): nat
    requires !TouchesWork(a)
  {
    match a
    case AdoptCase(_, g) => g
    case RecoverReleaseCase(g) => g
    case RecoverSettleCase(g) => g
  }

  function RecoveredWork(w: Work, r: Recovery): Result<Work>
    requires TouchesWork(r.action)
  {
    if w.owner != r.expectedOwner || w.revision != r.expectedRevision then Err(StaleRevision)
    else if w.state != Active then Err(WorkClosed)
    else if r.action.AdoptWork? && r.action.newOwner == w.owner then Err(Invalid)
    else
      var cleared := w.(grants := Cleared(w.grants), watches := Cleared(w.watches), revision := w.revision + 1);
      match r.action
      case AdoptWork(p) => Ok(cleared.(owner := p, readers := Without(w.readers, p)))
      case RecoverCloseWork => Ok(cleared.(state := Closed))
  }

  function RecoveredCase(s: Control, item: Case, r: Recovery): Result<Case>
    requires !TouchesWork(r.action)
  {
    var next := item.revision + 1;
    if item.lead != r.expectedOwner || item.revision != r.expectedRevision then Err(StaleRevision)
    else if item.generation != ActionGeneration(r.action) then Err(StaleGeneration)
    else if item.state != Active then Err(CaseClosed)
    else
      match r.action
      case RecoverSettleCase(_) =>
        if item.effect != Possible then Err(NoEffect) else Ok(item.(effect := NotStarted, revision := next))
      case RecoverReleaseCase(_) =>
        if item.effect != NotStarted then Err(EffectUnresolved) else Ok(item.(state := Closed, revision := next))
      case AdoptCase(p, _) =>
        if item.effect != NotStarted then Err(EffectUnresolved)
        else if p == item.lead then Err(Invalid)
        else if !(forall k :: 0 <= k < |item.inputs| ==> VisibleWork(s, p, item.inputs[k].workId)) then Err(NotFound)
        else if |AddMember(item.members, p)| > MAX_PARTIES then Err(Capacity)
        else Ok(item.(members := AddMember(item.members, p), lead := p, generation := item.generation + 1, revision := next))
  }

  function ApplyRecovery(s: Control, r: Recovery): Result<Change> {
    if TouchesWork(r.action) then
      var i := WorkIndex(s.works, r.itemId);
      if i == |s.works| then Err(NotFound)
      else
        var w :- RecoveredWork(s.works[i], r);
        Ok(SetWork(i, w))
    else
      var i := CaseIndex(s.cases, r.itemId);
      if i == |s.cases| then Err(NotFound)
      else
        var c :- RecoveredCase(s, s.cases[i], r);
        Ok(SetCase(i, c))
  }

  function RecoverySchema(schema: nat): nat {
    if schema >= MANAGED_SCHEMA then schema else 2
  }

  /** The characters that trimming removes. */
  predicate IsSpace(c: char) {
    c == ' ' || '\U{0009}' <= c <= '\U{000D}' || c == '\U{00A0}' || c == '\U{1680}' || '\U{2000}' <= c <= '\U{200A}' ||
    c == '\U{2028}' || c == '\U{2029}' || c == '\U{202F}' || c == '\U{205F}' || c == '\U{3000}' || c == '\U{FEFF}'
  }

  predicate Blank(text: string) {
    forall i :: 0 <= i < |text| ==> IsSpace(text[i])
  }

  function RecoverStep(s: Control, operator: ParentId, r: Recovery): Outcome {
    var request := RecoveryRequest(operator, r);
    if Blank(r.statement) then Refused(Invalid)
    else if r.key.WorkerKey? then Refused(Forbidden)
    else
      match RecoveryFor(s.recoveries, operator, r.key)
      case Some(prior) => if prior.request == request then Recorded(RecoveryAnswer(prior)) else Refused(KeyConflict)
      case None =>
        if ReceiptKeyUsed(s.receipts, operator, r.key) || EventKeyUsed(s.events, operator, r.key) then Refused(KeyConflict)
        else if r.epoch != s.epoch then Refused(StaleEpoch)
        else
          match ApplyRecovery(s, r)
          case Err(e) => Refused(e)
          case Ok(change) =>
            Candidate(Recovering(change, RecoverySchema(s.schema), RecoveryReceipt(operator, request, s.revision + 1, r)))
  }
}
