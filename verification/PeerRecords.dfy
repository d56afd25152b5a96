/** Peer-resolution records as notes of a case: when they are current, and when one may be posted
    or acknowledged. */
module PeerRecords {
  import opened ControlTypes
  import opened Records
  import L = Lineage

  // ---------- worker consent ----------

  predicate IsWorkerPost(r: Receipt, noteId: Id) {
    r.action == ActPostNote && r.itemId == noteId && r.key.WorkerKey?
  }

  predicate WorkerPosted(receipts: seq<Receipt>, noteId: Id) {
    exists i :: 0 <= i < |receipts| && IsWorkerPost(receipts[i], noteId)
  }

  function WorkPrincipal(w: Work): Party
    requires w.managed.Some?
  {
    TaskParty(w.managed.value.taskId, w.owner, w.managed.value.controlGeneration, w.workspaceId)
  }

  predicate ActiveManaged(ws: seq<Work>, id: Id) {
    HasWork(ws, id) && ws[WorkIndex(ws, id)].managed.Some? && ws[WorkIndex(ws, id)].state == Active
  }

  /** The task principals of a case, when every selected source is live managed work, they are distinct
      and every member owns one; the source refuses otherwise. */
  function WorkerParties(works: seq<Work>, item: Case): (r: Option<seq<Party>>)
    ensures r.Some? ==> |r.value| == |item.inputs| <= MAX_PARTIES && Distinct(r.value)
  {
    if !(forall k :: 0 <= k < |item.inputs| ==> ActiveManaged(works, item.inputs[k].workId)) then None
    else
      var parties := seq(|item.inputs|, k requires 0 <= k < |item.inputs| =>
        WorkPrincipal(works[WorkIndex(works, item.inputs[k].workId)]));
      if |parties| <= MAX_PARTIES && Distinct(parties) && (forall m :: 0 <= m < |item.members| ==> OwnsInput(works, item, item.members[m]))
      then Some(parties) else None
  }

  predicate OwnsInput(works: seq<Work>, item: Case, parent: ParentId) {
    exists k :: 0 <= k < |item.inputs| && HasWork(works, item.inputs[k].workId) &&
      works[WorkIndex(works, item.inputs[k].workId)].owner == parent
  }

  // ---------- one evidence context as lineage entries ----------

  predicate IsProposalNote(n: Note, caseId: Id) {
    n.subject == Subject(CaseSubject, caseId) && n.kind == AgreementProposal &&
    n.text.PeerText? && n.text.record.Proposal?
  }

  predicate SourceCurrent(works: seq<Work>, item: Case, source: Source) {
    HasWork(works, source.workId) &&
    works[WorkIndex(works, source.workId)].revision == source.workRevision &&
    works[WorkIndex(works, source.workId)].inputOid == source.inputOid &&
    Selection(source.workId, source.selectedCommit) in item.inputs
  }

  predicate SourcesCurrent(works: seq<Work>, item: Case, sources: seq<Source>) {
    |sources| == |item.inputs| && forall k :: 0 <= k < |sources| ==> SourceCurrent(works, item, sources[k])
  }

  /** The case is active at exactly the recorded version, with every recorded source current. */
  predicate EvidenceStanding(works: seq<Work>, item: Case, ev: Evidence) {
    item.id == ev.caseId && item.state == Active && item.revision == ev.caseRevision &&
    item.generation == ev.caseGeneration && SourcesCurrent(works, item, ev.sources)
  }

  function EntryOf(s: Control, item: Case, ev: Evidence, n: Note): L.Entry {
    if IsProposalNote(n, item.id) && n.text.record.evidence == ev then
      var parties := WorkerParties(s.works, item);
      L.Entry(n.id, true, n.withdrawn, n.text.record.digest, n.text.record.predecessor, n.text.record.proposalRevision,
              WorkerPosted(s.receipts, n.id), parties.Some? && SameSet(n.parties, parties.value),
              forall k :: 0 <= k < |n.parties| ==> n.parties[k] in n.acknowledged,
              EvidenceStanding(s.works, item, ev))
    else L.Entry(n.id, false, n.withdrawn, "", None, 0, false, false, false, false)
  }

  function EntriesOf(s: Control, item: Case, ev: Evidence): (es: L.Entries)
    ensures |es| == |s.notes|
    ensures forall i :: 0 <= i < |es| ==> es[i] == EntryOf(s, item, ev, s.notes[i])
  {
    seq(|s.notes|, i requires 0 <= i < |s.notes| => EntryOf(s, item, ev, s.notes[i]))
  }

  // ---------- currency of the three record kinds ----------

  predicate ProposalCurrent(s: Control, i: nat)
    requires i < |s.notes|
  {
    var n := s.notes[i];
    n.text.PeerText? && n.text.record.Proposal? &&
    var ev := n.text.record.evidence;
    HasCase(s.cases, ev.caseId) && IsProposalNote(n, ev.caseId) &&
    L.Current(EntriesOf(s, s.cases[CaseIndex(s.cases, ev.caseId)], ev), i, None)
  }

  /** An acknowledged, unsuperseded, unique proposal with the digest in the evidence. */
  function MatchingProposal(s: Control, item: Case, ev: Evidence, digest: Digest): (m: Option<nat>)
    ensures m.Some? ==> m.value < |s.notes| && !s.notes[m.value].withdrawn && IsProposalNote(s.notes[m.value], item.id) &&
                        s.notes[m.value].text.record.evidence == ev && s.notes[m.value].text.record.digest == digest
  {
    var es := EntriesOf(s, item, ev);
    var m := L.UniqueMatch(es, digest);
    if m.Some? && !es[m.value].withdrawn && L.Acknowledged(es, m.value) && !L.Superseded(es, digest, None) then m else None
  }

  predicate CaseStanding(s: Control, ev: Evidence) {
    HasCase(s.cases, ev.caseId) && EvidenceStanding(s.works, s.cases[CaseIndex(s.cases, ev.caseId)], ev)
  }

  /** The proposal an application names is acknowledged, unsuperseded and itself current. */
  predicate ProposalSupports(s: Control, item: Case, ev: Evidence, digest: Digest) {
    var m := MatchingProposal(s, item, ev, digest);
    m.Some? && ProposalCurrent(s, m.value)
  }

  predicate ApplicationCurrent(s: Control, i: nat)
    requires i < |s.notes|
  {
    var n := s.notes[i];
    n.text.PeerText? && n.text.record.Application? &&
    var ev := n.text.record.evidence;
    !n.withdrawn && n.subject == Subject(CaseSubject, ev.caseId) && n.kind == ResolutionUpdate && CaseStanding(s, ev) &&
    ProposalSupports(s, s.cases[CaseIndex(s.cases, ev.caseId)], ev, n.text.record.proposalDigest)
  }

  /** A current applied application with the digest in the evidence. */
  predicate AppliedApplication(s: Control, item: Case, ev: Evidence, digest: Digest) {
    exists i :: 0 <= i < |s.notes| && AppliedMatch(s.notes[i], item.id, ev, digest) && ApplicationCurrent(s, i)
  }

  predicate AppliedMatch(n: Note, caseId: Id, ev: Evidence, digest: Digest) {
    n.subject == Subject(CaseSubject, caseId) && n.kind == ResolutionUpdate && !n.withdrawn &&
    n.text.PeerText? && n.text.record.Application? && n.text.record.applicationDigest == digest &&
    n.text.record.status == StatusApplied && n.text.record.evidence == ev
  }

  // ---------- posting ----------

  predicate SourcesVisible(s: Control, parent: ParentId, item: Case, sources: seq<Source>) {
    |sources| == |item.inputs| &&
    forall k :: 0 <= k < |sources| ==> VisibleWork(s, parent, sources[k].workId) && SourceCurrent(s.works, item, sources[k])
  }

  /** A proposal in this case already retains the digest in the same evidence, withdrawn or not. */
  predicate DigestRetained(notes: seq<Note>, caseId: Id, ev: Evidence, digest: Digest) {
    exists i :: 0 <= i < |notes| && IsProposalNote(notes[i], caseId) &&
      notes[i].text.record.evidence == ev && notes[i].text.record.digest == digest
  }

  /** An unwithdrawn counter already answers the predecessor in the same evidence. */
  predicate PredecessorAnswered(notes: seq<Note>, caseId: Id, ev: Evidence, predecessor: Digest) {
    exists i :: 0 <= i < |notes| && IsProposalNote(notes[i], caseId) && !notes[i].withdrawn &&
      notes[i].text.record.evidence == ev && notes[i].text.record.predecessor == Some(predecessor)
  }

  /** The unique current predecessor of a counter-proposal about to be posted. */
  function PostPredecessor(s: Control, item: Case, r: PeerRecord): (p: Option<nat>)
    requires r.Proposal?
    ensures p.Some? ==> p.value < |s.notes|
  {
    if r.predecessor.None? || r.predecessor.value == r.digest then None
    else
      var es := EntriesOf(s, item, r.evidence);
      var m := L.UniqueMatch(es, r.predecessor.value);
      if m.Some? && !es[m.value].withdrawn && r.proposalRevision == es[m.value].revision + 1 then m else None
  }

  function PeerPostAllowed(s: Control, parent: ParentId, subject: Subject, kind: NoteKind, parties: seq<ParentId>,
                           r: PeerRecord, worker: bool): Result<()> {
    if kind != (if r.Proposal? then AgreementProposal else ResolutionUpdate) then Err(PeerInvalid)
    else if subject != Subject(CaseSubject, r.evidence.caseId) then Err(PeerInvalid)
    else if !VisibleCase(s, parent, subject.id) then Err(NotFound)
    else
      var item := s.cases[CaseIndex(s.cases, subject.id)];
      var ev := r.evidence;
      if item.state != Active then Err(CaseClosed)
      else if ev.caseRevision != item.revision || ev.caseGeneration != item.generation then Err(StaleRevision)
      else
        match r {
          case Proposal(_, _, participants, digest, predecessor, _) =>
            if !SameSet(participants, item.members) || !SameSet(parties, item.members) || parent !in participants then Err(PeerInvalid)
            else if !SourcesVisible(s, parent, item, ev.sources) then Err(StaleRevision)
            else if DigestRetained(s.notes, item.id, ev, digest) then Err(PeerInvalid)
            else if predecessor.None? then Ok(())
            else
              var p := PostPredecessor(s, item, r);
              if p.None? || !ProposalCurrent(s, p.value) then Err(PeerInvalid)
              else if !worker && L.WorkerLineage(EntriesOf(s, item, ev), p.value, {}) then Err(Forbidden)
              else if PredecessorAnswered(s.notes, item.id, ev, predecessor.value) then Err(PeerInvalid)
              else Ok(())
          case Application(_, proposalDigest, _, _) =>
            if parent != item.lead then Err(Forbidden)
            else if !SourcesVisible(s, parent, item, ev.sources) then Err(StaleRevision)
            else Need(ProposalSupports(s, item, ev, proposalDigest), NotAcknowledged)
          case Verification(_, applicationDigest, _) =>
            if parent != item.lead then Err(Forbidden)
            else if !SourcesVisible(s, parent, item, ev.sources) then Err(StaleRevision)
            else Need(AppliedApplication(s, item, ev, applicationDigest), NotAcknowledged)
        }
  }

  // ---------- acknowledging ----------

  function PeerAckAllowed(s: Control, i: nat, worker: bool): Result<()>
    requires i < |s.notes| && s.notes[i].text.PeerText?
  {
    var n, r := s.notes[i], s.notes[i].text.record;
    if !r.Proposal? then Ok(())
    else
      var ev := r.evidence;
      if !HasCase(s.cases, ev.caseId) then Err(StaleRevision)
      else
        var item := s.cases[CaseIndex(s.cases, ev.caseId)];
        if item.state != Active || item.revision != ev.caseRevision || item.generation != ev.caseGeneration then Err(StaleRevision)
        else if L.Superseded(EntriesOf(s, item, ev), r.digest, None) then Err(StaleRevision)
        else if !(forall k :: 0 <= k < |ev.sources| ==> SourceCurrent(s.works, item, ev.sources[k])) then Err(StaleRevision)
        else if r.predecessor.Some? && !ProposalCurrent(s, i) then Err(StaleRevision)
        else
          var expected := if worker then WorkerParties(s.works, item) else Some(AsParties(r.participants));
          if expected.None? then Err(OperationForbidden)
          else Need(SameSet(n.parties, expected.value), PeerInvalid)
  }

  // ---------- what a retained lineage guarantees ----------

  /** Unique note identities carry over to any evidence context, so lineage agreement applies to it. */
  lemma EntriesUnique(s: Control, item: Case, ev: Evidence)
    requires forall i, j :: 0 <= i < j < |s.notes| ==> s.notes[i].id != s.notes[j].id
    ensures L.UniqueIds(EntriesOf(s, item, ev))
  {
  }

  /** A current application rests on exactly one proposal; two current applications of one lineage
      therefore rest on the same one. */
  lemma ApplicationsAgree(s: Control, item: Case, ev: Evidence, p: seq<nat>, q: seq<nat>, i: nat, j: nat)
    requires forall a, b :: 0 <= a < b < |s.notes| ==> s.notes[a].id != s.notes[b].id
    requires i < |s.notes| && ApplicationCurrent(s, i) && s.notes[i].text.record.evidence == ev
    requires j < |s.notes| && ApplicationCurrent(s, j) && s.notes[j].text.record.evidence == ev
    requires item == s.cases[CaseIndex(s.cases, ev.caseId)]
    requires L.Chain(EntriesOf(s, item, ev), p) && L.Chain(EntriesOf(s, item, ev), q) && p[0] == q[0]
    requires Some(p[|p| - 1]) == MatchingProposal(s, item, ev, s.notes[i].text.record.proposalDigest)
    requires Some(q[|q| - 1]) == MatchingProposal(s, item, ev, s.notes[j].text.record.proposalDigest)
    ensures s.notes[i].text.record.proposalDigest == s.notes[j].text.record.proposalDigest
  {
    var es := EntriesOf(s, item, ev);
    EntriesUnique(s, item, ev);
    L.LineageAgreement(es, p, q);
  }
}
