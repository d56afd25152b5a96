/** Counter-proposals of one case, in one evidence context, form a graph over digests.
    A proposal is current while its whole ancestry is unwithdrawn, unique and not superseded
    by an acknowledged descendant. */
module Lineage {
  import opened ControlTypes
  import opened AnswerGraph

  /** What currency needs to know of one retained note.  `standing` gathers the conditions that do
      not depend on other proposals: its case is active at the recorded version and its sources are current. */
  datatype Entry = Entry(
    id: Id, proposal: bool, withdrawn: bool, digest: Digest, predecessor: Option<Digest>, revision: nat,
    posted: bool, partiesMatch: bool, allAcknowledged: bool, standing: bool)

  type Entries = seq<Entry>

  predicate Carries(e: Entry, digest: Digest) {
    e.proposal && e.digest == digest
  }

  /** The first proposal at or after `from` with this digest. */
  function NextMatch(es: Entries, digest: Digest, from: nat): (i: nat)
    requires from <= |es|
    ensures from <= i <= |es|
    ensures i < |es| ==> Carries(es[i], digest)
    ensures forall j :: from <= j < i ==> !Carries(es[j], digest)
    decreases |es| - from
  {
    if from == |es| || Carries(es[from], digest) then from else NextMatch(es, digest, from + 1)
  }

  /** The one proposal, withdrawn or not, with this digest. */
  function UniqueMatch(es: Entries, digest: Digest): (r: Option<nat>)
    ensures r.Some? ==> r.value < |es| && Carries(es[r.value], digest)
    ensures r.Some? ==> forall j :: 0 <= j < |es| && Carries(es[j], digest) ==> j == r.value
    ensures r.None? ==> forall i :: 0 <= i < |es| && Carries(es[i], digest) ==>
                                    exists j :: 0 <= j < |es| && j != i && Carries(es[j], digest)
  {
    var i := NextMatch(es, digest, 0);
    if i < |es| && NextMatch(es, digest, i + 1) == |es| then Some(i) else None
  }

  /** The unique unwithdrawn predecessor a counter-proposal answers with the next revision. */
  function Predecessor(es: Entries, i: nat): (r: Option<nat>)
    requires i < |es|
    ensures r.Some? ==> r.value < |es| && !es[r.value].withdrawn && es[i].predecessor == Some(es[r.value].digest) &&
                        es[r.value].proposal && es[r.value].digest != es[i].digest &&
                        es[i].revision == es[r.value].revision + 1
  {
    if es[i].predecessor.None? || es[i].predecessor.value == es[i].digest then None
    else
      var m := UniqueMatch(es, es[i].predecessor.value);
      if m.Some? && !es[m.value].withdrawn && es[i].revision == es[m.value].revision + 1 then m else None
  }

  /** Whether this proposal or an ancestor was posted by a task; `seen` stops a walk that returns to a note. */
  predicate WorkerLineage(es: Entries, i: nat, seen: set<Id>)
    requires i < |es|
    decreases es[i].revision
  {
    es[i].id !in seen &&
    (es[i].posted ||
     var p := Predecessor(es, i);
     p.Some? && WorkerLineage(es, p.value, seen + {es[i].id}))
  }

  /** A task's lineage continues only through its own task's posts, named to the current principals. */
  predicate WorkerCurrent(es: Entries, i: nat)
    requires i < |es|
  {
    var p := Predecessor(es, i);
    if p.Some? && WorkerLineage(es, p.value, {}) && !es[i].posted then false
    else es[i].posted ==> es[i].partiesMatch
  }

  predicate Acknowledged(es: Entries, i: nat)
    requires i < |es|
  {
    WorkerCurrent(es, i) && es[i].allAcknowledged
  }

  function VertexOf(es: Entries, i: nat, ignored: Option<Id>): Vertex
    requires i < |es|
  {
    Vertex(es[i].proposal && !es[i].withdrawn && ignored != Some(es[i].id),
           es[i].predecessor, es[i].digest, Acknowledged(es, i))
  }

  /** The search sees the unwithdrawn proposals other than the ignored one. */
  function View(es: Entries, ignored: Option<Id>): (g: Graph)
    ensures |g| == |es|
    ensures forall i :: 0 <= i < |g| ==> g[i] == VertexOf(es, i, ignored)
  {
    seq(|es|, i requires 0 <= i < |es| => VertexOf(es, i, ignored))
  }

  predicate Superseded(es: Entries, digest: Digest, ignored: Option<Id>) {
    Search(View(es, ignored), [digest], {})
  }

  /** Recursion falls by proposal revision. */
  predicate Current(es: Entries, i: nat, ignored: Option<Id>)
    requires i < |es|
    decreases es[i].revision
  {
    !es[i].withdrawn && es[i].standing && WorkerCurrent(es, i) && !Superseded(es, es[i].digest, ignored) &&
    (es[i].predecessor.None? ||
     (var p := Predecessor(es, i);
      p.Some? && Current(es, p.value, Some(es[i].id))))
  }

  // ---------- currency reaches up the whole chain ----------

  /** Some acknowledged, unwithdrawn descendant of the digest is reachable without touching the ignored note. */
  ghost predicate ReachesAcknowledged(es: Entries, digest: Digest, ignored: Option<Id>) {
    ReachesAccepted(View(es, ignored), digest)
  }

  /** The nested loops of the source, run over one evidence context. */
  method PeerProposalSuperseded(es: Entries, digest: Digest, ignored: Option<Id>) returns (found: bool)
    ensures found == Superseded(es, digest, ignored)
    ensures found <==> ReachesAcknowledged(es, digest, ignored)
  {
    SearchIsReachability(View(es, ignored), digest);
    found := SearchLoop(View(es, ignored), digest);
  }

  ghost predicate IsProposal(es: Entries, i: nat) {
    i < |es| && es[i].proposal
  }

  /** `b` names `a` as its predecessor by digest; either may be withdrawn. */
  ghost predicate Descends(es: Entries, a: nat, b: nat) {
    IsProposal(es, a) && IsProposal(es, b) && es[b].predecessor == Some(es[a].digest)
  }

  /** A chain of counter-proposals, oldest first. */
  ghost predicate Chain(es: Entries, p: seq<nat>)
    decreases |p|
  {
    |p| > 0 && IsProposal(es, p[0]) &&
    (|p| == 1 || (Descends(es, p[0], p[1]) && Chain(es, p[1..])))
  }

  ghost predicate CurrentAt(es: Entries, i: nat, ignored: Option<Id>) {
    i < |es| && Current(es, i, ignored)
  }

  lemma CurrentPullsPredecessor(es: Entries, a: nat, b: nat, ignored: Option<Id>)
    requires Descends(es, a, b) && CurrentAt(es, b, ignored)
    ensures CurrentAt(es, a, Some(es[b].id)) && !es[b].withdrawn
    ensures es[b].digest != es[a].digest && es[b].revision == es[a].revision + 1
  {
    assert Carries(es[a], es[b].predecessor.value);
    assert Predecessor(es, b).value == a;
  }

  /** If the newest proposal of a chain is current, the oldest is current once the edge towards
      the second is ignored; a withdrawn or repeated link would have broken the chain. */
  lemma {:induction false} CurrentChain(es: Entries, p: seq<nat>)
    requires Chain(es, p) && |p| > 1 && CurrentAt(es, p[|p| - 1], None)
    ensures Descends(es, p[0], p[1]) && CurrentAt(es, p[0], Some(es[p[1]].id)) && !es[p[1]].withdrawn
    ensures es[p[1]].digest != es[p[0]].digest && es[p[1]].revision == es[p[0]].revision + 1
    decreases |p|
  {
    hide Current;
    if |p| == 2 {
      CurrentPullsPredecessor(es, p[0], p[1], None);
    } else {
      CurrentChain(es, p[1..]);
      CurrentPullsPredecessor(es, p[0], p[1], Some(es[p[2]].id));
    }
  }

  /** Revisions count the links of a current chain. */
  lemma {:induction false} ChainRevision(es: Entries, p: seq<nat>, k: nat)
    requires Chain(es, p) && k < |p| && CurrentAt(es, p[|p| - 1], None)
    ensures IsProposal(es, p[0]) && IsProposal(es, p[k])
    ensures es[p[k]].revision == es[p[0]].revision + k
    decreases |p|
  {
    hide Current;
    if k > 0 {
      CurrentChain(es, p);
      ChainRevision(es, p[1..], k - 1);
    }
  }

  /** The search started at the oldest proposal walks down a current acknowledged chain. */
  lemma {:induction false} ChainReaches(es: Entries, p: seq<nat>, avoid: Option<Id>)
    requires Chain(es, p) && |p| > 1
    requires CurrentAt(es, p[|p| - 1], None) && Acknowledged(es, p[|p| - 1])
    requires forall k :: 0 < k < |p| ==> p[k] < |es| && avoid != Some(es[p[k]].id)
    ensures IsProposal(es, p[0]) && ReachesAcknowledged(es, es[p[0]].digest, avoid)
    decreases |p|
  {
    hide Current, Acknowledged;
    CurrentChain(es, p);
    var g := View(es, avoid);
    if |p| == 2 {
      ReachDirectly(g, es[p[0]].digest, p[1]);
    } else {
      ChainReaches(es, p[1..], avoid);
      ReachThrough(g, es[p[0]].digest, p[1]);
    }
  }

  lemma CurrentIsUnsuperseded(es: Entries, i: nat, ignored: Option<Id>)
    requires CurrentAt(es, i, ignored)
    ensures !ReachesAcknowledged(es, es[i].digest, ignored)
  {
    SearchIsReachability(View(es, ignored), es[i].digest);
  }

  ghost predicate UniqueIds(es: Entries) {
    forall i, j :: 0 <= i < j < |es| ==> es[i].id != es[j].id
  }

  /** Two chains that part at their first link cannot both end in a current acknowledged proposal. */
  lemma BranchesConflict(es: Entries, p: seq<nat>, q: seq<nat>)
    requires UniqueIds(es) && Chain(es, p) && Chain(es, q) && p[0] == q[0]
    requires CurrentAt(es, p[|p| - 1], None) && CurrentAt(es, q[|q| - 1], None)
    requires |q| > 1 && (|p| > 1 ==> p[1] != q[1])
    ensures !Acknowledged(es, q[|q| - 1])
  {
    hide Current, Acknowledged;
    var avoid := if |p| > 1 then CurrentChain(es, p); Some(es[p[1]].id) else None;
    forall k | 0 < k < |q|
      ensures q[k] < |es| && avoid != Some(es[q[k]].id)
    {
      ChainRevision(es, q, k);
    }
    if Acknowledged(es, q[|q| - 1]) {
      ChainReaches(es, q, avoid);
      CurrentIsUnsuperseded(es, p[0], avoid);
    }
  }

  /** Lineage agreement.  Of all proposals descending from one root in one evidence context, along
      one branch or across branches and whatever was withdrawn in between, at most one that is
      fully acknowledged is current. */
  lemma {:induction false} LineageAgreement(es: Entries, p: seq<nat>, q: seq<nat>)
    requires UniqueIds(es) && Chain(es, p) && Chain(es, q) && p[0] == q[0]
    requires CurrentAt(es, p[|p| - 1], None) && Acknowledged(es, p[|p| - 1])
    requires CurrentAt(es, q[|q| - 1], None) && Acknowledged(es, q[|q| - 1])
    ensures p[|p| - 1] == q[|q| - 1]
    decreases |p|
  {
    hide Current, Acknowledged;
    if |p| > 1 && |q| > 1 && p[1] == q[1] {
      LineageAgreement(es, p[1..], q[1..]);
    } else if |q| > 1 {
      BranchesConflict(es, p, q);
    } else if |p| > 1 {
      BranchesConflict(es, q, p);
    }
  }

  /** Two independent roots in one evidence context may both be acknowledged and current. */
  lemma RootsAreIndependent() returns (es: Entries)
    ensures |es| == 2 && UniqueIds(es)
    ensures forall i :: 0 <= i < 2 ==> CurrentAt(es, i, None) && Acknowledged(es, i)
  {
    es := [Entry("a", true, false, "x", None, 1, false, false, true, true),
           Entry("b", true, false, "y", None, 1, false, false, true, true)];
    forall i | 0 <= i < 2
      ensures !Superseded(es, es[i].digest, None)
    {
      SearchIsReachability(View(es, None), es[i].digest);
    }
  }

  // ---------- the walk over worker lineage never meets its own guard ----------

  /** When every remembered note has a later revision than the walk's next one, the guard is idle. */
  lemma {:induction false} LineageGuardIsIdle(es: Entries, i: nat, seen: set<Id>)
    requires UniqueIds(es) && i < |es|
    requires forall j :: 0 <= j < |es| && es[j].id in seen ==> es[j].revision > es[i].revision
    ensures WorkerLineage(es, i, seen) == WorkerLineage(es, i, {})
    decreases es[i].revision
  {
    var p := Predecessor(es, i);
    if p.Some? {
      LineageGuardIsIdle(es, p.value, seen + {es[i].id});
      LineageGuardIsIdle(es, p.value, {} + {es[i].id});
    }
  }
}
